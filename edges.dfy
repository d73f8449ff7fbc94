/**
 * Edge extraction: turning relationship blocks into a flat, ordered list of
 * directed `EntityRelationship` edges, for seed pairs whose subject the caller
 * already knows and for the resources being normalised.
 */
module Edges {
  import opened Wrappers
  import opened JsonApi

  /** A directed edge: relationship label, owning entity, linked entity. */
  datatype EntityRelationship = EntityRelationship(name: string, from: EntityIdentity, to: EntityIdentity)

  /** A subject identity (possibly absent) paired with relationship blocks it owns. */
  datatype JsonEntityRelationships = JsonEntityRelationships(
    entity: Option<EntityIdentity>,
    jsonRelationships: seq<Relationship>)

  /** The identities of the references that carry one, in reference order. */
  function Identities(refs: seq<Resource>): (ids: seq<EntityIdentity>)
    ensures |ids| <= |refs|
    ensures |ids| == |refs| <==> forall k :: 0 <= k < |refs| ==> refs[k].entityID.Some?
    ensures forall id :: id in ids <==> exists k :: 0 <= k < |refs| && refs[k].entityID == Some(id)
    decreases |refs|
  {
    if |refs| == 0 then []
    else
      var rest := Identities(refs[1..]);
      assert forall k :: 1 <= k < |refs| ==> refs[k] == refs[1..][k - 1];
      match refs[0].entityID
      case None => rest
      case Some(id) => [id] + rest
  }

  /**
   * The edges that one block labelled `name`, owned by `from`, yields: one per
   * reference that has an identity, in reference order.
   */
  function EdgesTo(name: string, from: EntityIdentity, refs: seq<Resource>): (r: seq<EntityRelationship>)
    ensures |r| == |Identities(refs)|
    ensures forall i :: 0 <= i < |r| ==> r[i] == EntityRelationship(name, from, Identities(refs)[i])
    decreases |refs|
  {
    if |refs| == 0 then []
    else
      match refs[0].entityID
      case None => EdgesTo(name, from, refs[1..])
      case Some(to) => [EntityRelationship(name, from, to)] + EdgesTo(name, from, refs[1..])
  }

  /** The edges that the blocks owned by `from` yield, block after block. */
  function EntityRelationshipsOf(blocks: seq<Relationship>, from: EntityIdentity): (r: seq<EntityRelationship>)
    ensures forall e :: e in r ==> e.from == from
    decreases |blocks|
  {
    if |blocks| == 0 then []
    else EdgesTo(blocks[0].relationshipType, from, blocks[0].data) + EntityRelationshipsOf(blocks[1..], from)
  }

  /** The edges of the seed pairs, in seed order; a pair with no identity yields none. */
  function SeedEdges(seeds: seq<JsonEntityRelationships>): (r: seq<EntityRelationship>)
    ensures forall e :: e in r ==> exists i :: 0 <= i < |seeds| && seeds[i].entity == Some(e.from)
    decreases |seeds|
  {
    if |seeds| == 0 then []
    else
      var own := match seeds[0].entity
        case None => []
        case Some(id) => EntityRelationshipsOf(seeds[0].jsonRelationships, id);
      assert forall i :: 1 <= i < |seeds| ==> seeds[i] == seeds[1..][i - 1];
      own + SeedEdges(seeds[1..])
  }

  /** The edges of the resources' own blocks, in resource order; a resource with no identity yields none. */
  function ResourceEdges(resources: seq<Resource>): (r: seq<EntityRelationship>)
    ensures forall e :: e in r ==> exists i :: 0 <= i < |resources| && resources[i].entityID == Some(e.from)
    decreases |resources|
  {
    if |resources| == 0 then []
    else
      var own := match resources[0].entityID
        case None => []
        case Some(id) => EntityRelationshipsOf(resources[0].relationships, id);
      assert forall i :: 1 <= i < |resources| ==> resources[i] == resources[1..][i - 1];
      own + ResourceEdges(resources[1..])
  }

  /**
   * The full edge list of a normalisation pass: the seeds' edges, then the
   * resources'. Every edge is owned by a seed pair or a resource passed in.
   */
  function Relationships(resources: seq<Resource>, additional: seq<JsonEntityRelationships>): (r: seq<EntityRelationship>)
    ensures forall e :: e in r ==>
      (exists i :: 0 <= i < |additional| && additional[i].entity == Some(e.from)) ||
      (exists i :: 0 <= i < |resources| && resources[i].entityID == Some(e.from))
  {
    SeedEdges(additional) + ResourceEdges(resources)
  }

  /**
   * Each resource as a seed pair of its identity and its own blocks. As a seed
   * pair, a resource contributes exactly the edges it contributes as a resource.
   */
  function AsSeeds(resources: seq<Resource>): (seeds: seq<JsonEntityRelationships>)
    ensures |seeds| == |resources|
    ensures forall i :: 0 <= i < |resources| ==>
      seeds[i].entity == resources[i].entityID && seeds[i].jsonRelationships == resources[i].relationships
    ensures SeedEdges(seeds) == ResourceEdges(resources)
    decreases |resources|
  {
    if |resources| == 0 then []
    else
      var rest := AsSeeds(resources[1..]);
      var seeds := [JsonEntityRelationships(resources[0].entityID, resources[0].relationships)] + rest;
      assert seeds[1..] == rest;
      assert forall i :: 1 <= i < |resources| ==> resources[i] == resources[1..][i - 1];
      seeds
  }

  // ---------------------------------------------------------------------------
  // Which edges are extracted

  /** Edge `e` is declared by the blocks owned by `from`: some block with e's label refers to e's target. */
  ghost predicate Declares(blocks: seq<Relationship>, from: EntityIdentity, e: EntityRelationship)
  {
    e.from == from &&
    exists j, k :: 0 <= j < |blocks| && 0 <= k < |blocks[j].data| &&
      blocks[j].relationshipType == e.name && blocks[j].data[k].entityID == Some(e.to)
  }

  /** Edge `e` is declared by some seed pair that has an identity. */
  ghost predicate DeclaredBySeed(seeds: seq<JsonEntityRelationships>, e: EntityRelationship)
  {
    exists i :: 0 <= i < |seeds| && seeds[i].entity.Some? &&
      Declares(seeds[i].jsonRelationships, seeds[i].entity.value, e)
  }

  /** Edge `e` is declared by some resource that has an identity. */
  ghost predicate DeclaredByResource(resources: seq<Resource>, e: EntityRelationship)
  {
    exists i :: 0 <= i < |resources| && resources[i].entityID.Some? &&
      Declares(resources[i].relationships, resources[i].entityID.value, e)
  }

  /** One block yields exactly the edges with its label and subject whose target one of its references carries. */
  lemma EdgesToMembership(name: string, from: EntityIdentity, refs: seq<Resource>, e: EntityRelationship)
    ensures e in EdgesTo(name, from, refs) <==>
      e.name == name && e.from == from && exists k :: 0 <= k < |refs| && refs[k].entityID == Some(e.to)
  {
  }

  /** An edge is extracted from a subject's blocks exactly when those blocks declare it. */
  lemma {:induction false} EntityRelationshipsOfMembership(blocks: seq<Relationship>, from: EntityIdentity, e: EntityRelationship)
    ensures e in EntityRelationshipsOf(blocks, from) <==> Declares(blocks, from, e)
    decreases |blocks|
  {
    if |blocks| > 0 {
      EdgesToMembership(blocks[0].relationshipType, from, blocks[0].data, e);
      EntityRelationshipsOfMembership(blocks[1..], from, e);
      if Declares(blocks[1..], from, e) {
        var j, k :| 0 <= j < |blocks[1..]| && 0 <= k < |blocks[1..][j].data| &&
          blocks[1..][j].relationshipType == e.name && blocks[1..][j].data[k].entityID == Some(e.to);
        assert blocks[j + 1].data[k].entityID == Some(e.to);
      }
      if Declares(blocks, from, e) {
        var j, k :| 0 <= j < |blocks| && 0 <= k < |blocks[j].data| &&
          blocks[j].relationshipType == e.name && blocks[j].data[k].entityID == Some(e.to);
        if j > 0 {
          assert blocks[1..][j - 1].data[k].entityID == Some(e.to);
        }
      }
    }
  }

  // ---------------------------------------------------------------------------
  // Order: each extraction is a concatenation that distributes over its input

  lemma {:induction false} IdentitiesAppend(xs: seq<Resource>, ys: seq<Resource>)
    ensures Identities(xs + ys) == Identities(xs) + Identities(ys)
    decreases |xs|
  {
    if |xs| == 0 {
      assert xs + ys == ys;
    } else {
      assert (xs + ys)[0] == xs[0];
      assert (xs + ys)[1..] == xs[1..] + ys;
      IdentitiesAppend(xs[1..], ys);
    }
  }

  /** A block's edges over joined reference lists are the edges of the first list, then of the second. */
  lemma {:induction false} EdgesToAppend(name: string, from: EntityIdentity, xs: seq<Resource>, ys: seq<Resource>)
    ensures EdgesTo(name, from, xs + ys) == EdgesTo(name, from, xs) + EdgesTo(name, from, ys)
    decreases |xs|
  {
    if |xs| == 0 {
      assert xs + ys == ys;
    } else {
      assert (xs + ys)[0] == xs[0];
      assert (xs + ys)[1..] == xs[1..] + ys;
      EdgesToAppend(name, from, xs[1..], ys);
    }
  }

  /** The blocks of a subject yield their edges block by block, in block order. */
  lemma {:induction false} EntityRelationshipsOfAppend(xs: seq<Relationship>, ys: seq<Relationship>, from: EntityIdentity)
    ensures EntityRelationshipsOf(xs + ys, from) == EntityRelationshipsOf(xs, from) + EntityRelationshipsOf(ys, from)
    decreases |xs|
  {
    if |xs| == 0 {
      assert xs + ys == ys;
    } else {
      assert (xs + ys)[0] == xs[0];
      assert (xs + ys)[1..] == xs[1..] + ys;
      EntityRelationshipsOfAppend(xs[1..], ys, from);
    }
  }

  /** Seed pairs yield their edges pair by pair, in seed order. */
  lemma {:induction false} SeedEdgesAppend(xs: seq<JsonEntityRelationships>, ys: seq<JsonEntityRelationships>)
    ensures SeedEdges(xs + ys) == SeedEdges(xs) + SeedEdges(ys)
    decreases |xs|
  {
    if |xs| == 0 {
      assert xs + ys == ys;
    } else {
      assert (xs + ys)[0] == xs[0];
      assert (xs + ys)[1..] == xs[1..] + ys;
      SeedEdgesAppend(xs[1..], ys);
    }
  }

  /** Resources yield their edges resource by resource, in resource order. */
  lemma {:induction false} ResourceEdgesAppend(xs: seq<Resource>, ys: seq<Resource>)
    ensures ResourceEdges(xs + ys) == ResourceEdges(xs) + ResourceEdges(ys)
    decreases |xs|
  {
    if |xs| == 0 {
      assert xs + ys == ys;
    } else {
      assert (xs + ys)[0] == xs[0];
      assert (xs + ys)[1..] == xs[1..] + ys;
      ResourceEdgesAppend(xs[1..], ys);
    }
  }

  /**
   * Seed edges come first: extracting from `resources` with seed pairs `additional`
   * is extracting from the seed pairs alone, followed by the resources as seed pairs.
   */
  lemma RelationshipsAsSeeds(resources: seq<Resource>, additional: seq<JsonEntityRelationships>)
    ensures Relationships(resources, additional) == SeedEdges(additional + AsSeeds(resources))
  {
    SeedEdgesAppend(additional, AsSeeds(resources));
  }

  // ---------------------------------------------------------------------------
  // What is dropped silently

  /** A reference without an identity yields no edge, wherever it stands. */
  lemma UnidentifiedReferenceIgnored(name: string, from: EntityIdentity, xs: seq<Resource>, r: Resource, ys: seq<Resource>)
    requires r.entityID.None?
    ensures EdgesTo(name, from, xs + [r] + ys) == EdgesTo(name, from, xs + ys)
  {
    EdgesToAppend(name, from, xs + [r], ys);
    EdgesToAppend(name, from, xs, [r]);
    EdgesToAppend(name, from, xs, ys);
  }

  /** A seed pair without an identity yields no edge, wherever it stands. */
  lemma UnidentifiedSeedIgnored(xs: seq<JsonEntityRelationships>, s: JsonEntityRelationships, ys: seq<JsonEntityRelationships>)
    requires s.entity.None?
    ensures SeedEdges(xs + [s] + ys) == SeedEdges(xs + ys)
  {
    SeedEdgesAppend(xs + [s], ys);
    SeedEdgesAppend(xs, [s]);
    SeedEdgesAppend(xs, ys);
  }

  /** A resource without an identity yields no edge, wherever it stands. */
  lemma UnidentifiedResourceIgnored(xs: seq<Resource>, r: Resource, ys: seq<Resource>, additional: seq<JsonEntityRelationships>)
    requires r.entityID.None?
    ensures Relationships(xs + [r] + ys, additional) == Relationships(xs + ys, additional)
  {
    ResourceEdgesAppend(xs + [r], ys);
    ResourceEdgesAppend(xs, [r]);
    ResourceEdgesAppend(xs, ys);
  }

  // ---------------------------------------------------------------------------
  // Nothing is invented, nothing declared is lost

  lemma {:induction false} SeedEdgesMembership(seeds: seq<JsonEntityRelationships>, e: EntityRelationship)
    ensures e in SeedEdges(seeds) <==> DeclaredBySeed(seeds, e)
    decreases |seeds|
  {
    if |seeds| > 0 {
      SeedEdgesMembership(seeds[1..], e);
      if seeds[0].entity.Some? {
        EntityRelationshipsOfMembership(seeds[0].jsonRelationships, seeds[0].entity.value, e);
      }
      if DeclaredBySeed(seeds[1..], e) {
        var i :| 0 <= i < |seeds[1..]| && seeds[1..][i].entity.Some? &&
          Declares(seeds[1..][i].jsonRelationships, seeds[1..][i].entity.value, e);
        assert seeds[i + 1] == seeds[1..][i];
      }
      if DeclaredBySeed(seeds, e) {
        var i :| 0 <= i < |seeds| && seeds[i].entity.Some? &&
          Declares(seeds[i].jsonRelationships, seeds[i].entity.value, e);
        if i > 0 {
          assert seeds[1..][i - 1] == seeds[i];
        }
      }
    }
  }

  /**
   * An edge is extracted exactly when a seed pair with an identity, or a
   * resource with an identity, declares it: its `from` is that subject, its
   * `name` a block label and its `to` a reference's identity.
   */
  lemma RelationshipsMembership(resources: seq<Resource>, additional: seq<JsonEntityRelationships>, e: EntityRelationship)
    ensures e in Relationships(resources, additional) <==>
      DeclaredBySeed(additional, e) || DeclaredByResource(resources, e)
  {
    SeedEdgesMembership(additional, e);
    SeedEdgesMembership(AsSeeds(resources), e);
    var seeds := AsSeeds(resources);
    if DeclaredBySeed(seeds, e) {
      var i :| 0 <= i < |seeds| && seeds[i].entity.Some? &&
        Declares(seeds[i].jsonRelationships, seeds[i].entity.value, e);
      assert resources[i].entityID == seeds[i].entity;
    }
    if DeclaredByResource(resources, e) {
      var i :| 0 <= i < |resources| && resources[i].entityID.Some? &&
        Declares(resources[i].relationships, resources[i].entityID.value, e);
      assert seeds[i].entity == resources[i].entityID;
    }
  }
}
