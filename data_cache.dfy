/**
 * The data cache update: the typed collections, join collections and edge list
 * that one JSON:API response normalises into, how two updates merge, and how a
 * whole document is loaded.
 */
module DataCache {
  import opened Wrappers
  import opened JsonApi
  import opened Edges

  // The typed entities; their fields are produced by the adapters and not modelled.
  type Content(!new)
  type Bookmark(!new)
  type Progression(!new)
  type Domain(!new)
  type Group(!new)
  type Category(!new)
  type ContentCategory(!new)
  type ContentDomain(!new)

  /** The error an adapter throws when a resource cannot become its entity. */
  type DecodeError

  const ContentsType: string := "contents"
  const BookmarksType: string := "bookmarks"
  const ProgressionsType: string := "progressions"
  const DomainsType: string := "domains"
  const GroupsType: string := "groups"
  const CategoriesType: string := "categories"

  /** The six type tags that have a per-kind adapter. */
  const KnownTypes: set<string> :=
    {ContentsType, BookmarksType, ProgressionsType, DomainsType, GroupsType, CategoriesType}

  /**
   * The per-kind adapters, defined outside this model: each turns one resource,
   * given the whole edge list, into its entity or throws; the two join adapters
   * see only the edge list.
   */
  datatype Adapters = Adapters(
    content: (Resource, seq<EntityRelationship>) -> Result<Content, DecodeError>,
    bookmark: (Resource, seq<EntityRelationship>) -> Result<Bookmark, DecodeError>,
    progression: (Resource, seq<EntityRelationship>) -> Result<Progression, DecodeError>,
    domain: (Resource, seq<EntityRelationship>) -> Result<Domain, DecodeError>,
    group: (Resource, seq<EntityRelationship>) -> Result<Group, DecodeError>,
    category: (Resource, seq<EntityRelationship>) -> Result<Category, DecodeError>,
    contentCategories: seq<EntityRelationship> -> Result<seq<ContentCategory>, DecodeError>,
    contentDomains: seq<EntityRelationship> -> Result<seq<ContentDomain>, DecodeError>)

  /** The update record; its constructor is the memberwise initialiser. */
  datatype DataCacheUpdate = DataCacheUpdate(
    contents: seq<Content>,
    bookmarks: seq<Bookmark>,
    progressions: seq<Progression>,
    domains: seq<Domain>,
    groups: seq<Group>,
    categories: seq<Category>,
    contentCategories: seq<ContentCategory>,
    contentDomains: seq<ContentDomain>,
    relationships: seq<EntityRelationship>,
    bookmarkDeletionContentIDs: seq<int>,
    progressionDeletionContentIDs: seq<int>)

  /** The memberwise initialiser with every argument left at its default. */
  function Empty(): DataCacheUpdate
  {
    DataCacheUpdate([], [], [], [], [], [], [], [], [], [], [])
  }

  // ---------------------------------------------------------------------------
  // Normalising one list of resources

  /** The resources whose type tag is `tag`, in input order. */
  function OfType(resources: seq<Resource>, tag: string): (r: seq<Resource>)
    ensures |r| <= |resources|
    ensures forall x :: x in r <==> x in resources && x.resourceType == tag
    decreases |resources|
  {
    if |resources| == 0 then []
    else if resources[0].resourceType == tag then [resources[0]] + OfType(resources[1..], tag)
    else OfType(resources[1..], tag)
  }

  /**
   * Every resource through `process`, in order, stopping at the first one that
   * throws; the result is the thrown error or one entity per resource.
   */
  function ProcessAll<T>(
    resources: seq<Resource>,
    process: (Resource, seq<EntityRelationship>) -> Result<T, DecodeError>,
    edges: seq<EntityRelationship>): (r: Result<seq<T>, DecodeError>)
    ensures r.Success? <==> forall i :: 0 <= i < |resources| ==> process(resources[i], edges).Success?
    ensures r.Success? ==> Processed(r.value, resources, process, edges)
    ensures r.Failure? ==>
      exists i :: 0 <= i < |resources| && process(resources[i], edges) == Failure(r.error) &&
        forall j :: 0 <= j < i ==> process(resources[j], edges).Success?
    ensures ErrorOf(r) == FirstRejected(resources, process, edges)
    decreases |resources|
  {
    if |resources| == 0 then Success([])
    else
      var first :- process(resources[0], edges);
      var rest :- ProcessAll(resources[1..], process, edges);
      assert forall i :: 1 <= i < |resources| ==> resources[i] == resources[1..][i - 1];
      Success([first] + rest)
  }

  /** `entities` holds, in order, the entity `process` made of each of `resources`. */
  ghost predicate Processed<T>(
    entities: seq<T>,
    resources: seq<Resource>,
    process: (Resource, seq<EntityRelationship>) -> Result<T, DecodeError>,
    edges: seq<EntityRelationship>)
  {
    |entities| == |resources| &&
    forall i :: 0 <= i < |resources| ==>
      process(resources[i], edges).Success? && entities[i] == process(resources[i], edges).value
  }

  /** The error the adapter for `r`'s type tag throws on it, if there is one. */
  function AdapterError(r: Resource, edges: seq<EntityRelationship>, ad: Adapters): (e: Option<DecodeError>)
    ensures r.resourceType !in KnownTypes ==> e.None?
    ensures r.resourceType == ContentsType ==> (e.None? <==> ad.content(r, edges).Success?)
    ensures r.resourceType == BookmarksType ==> (e.None? <==> ad.bookmark(r, edges).Success?)
    ensures r.resourceType == ProgressionsType ==> (e.None? <==> ad.progression(r, edges).Success?)
    ensures r.resourceType == DomainsType ==> (e.None? <==> ad.domain(r, edges).Success?)
    ensures r.resourceType == GroupsType ==> (e.None? <==> ad.group(r, edges).Success?)
    ensures r.resourceType == CategoriesType ==> (e.None? <==> ad.category(r, edges).Success?)
  {
    if r.resourceType == ContentsType then ErrorOf(ad.content(r, edges))
    else if r.resourceType == BookmarksType then ErrorOf(ad.bookmark(r, edges))
    else if r.resourceType == ProgressionsType then ErrorOf(ad.progression(r, edges))
    else if r.resourceType == DomainsType then ErrorOf(ad.domain(r, edges))
    else if r.resourceType == GroupsType then ErrorOf(ad.group(r, edges))
    else if r.resourceType == CategoriesType then ErrorOf(ad.category(r, edges))
    else None
  }

  /** The error a call threw, or `None` when it returned. */
  function ErrorOf<T>(r: Result<T, DecodeError>): Option<DecodeError>
  {
    match r
    case Success(_) => None
    case Failure(e) => Some(e)
  }

  /** The error of the first resource, in input order, that `process` rejects, if any. */
  ghost function FirstRejected<T>(
    resources: seq<Resource>,
    process: (Resource, seq<EntityRelationship>) -> Result<T, DecodeError>,
    edges: seq<EntityRelationship>): Option<DecodeError>
    decreases |resources|
  {
    if |resources| == 0 then None
    else if process(resources[0], edges).Failure? then Some(process(resources[0], edges).error)
    else FirstRejected(resources[1..], process, edges)
  }

  /** The first of two possible throws: `first` when there is one, otherwise `second`. */
  function OrElse(first: Option<DecodeError>, second: Option<DecodeError>): Option<DecodeError>
  {
    if first.Some? then first else second
  }

  /**
   * The throw that ends a normalisation pass, if any: the kinds are tried in the
   * order contents, bookmarks, progressions, domains, groups, categories, each
   * over its resources in input order, then the content-category and the
   * content-domain join.
   */
  ghost function PassError(
    contentResources: seq<Resource>, bookmarkResources: seq<Resource>, progressionResources: seq<Resource>,
    domainResources: seq<Resource>, groupResources: seq<Resource>, categoryResources: seq<Resource>,
    edges: seq<EntityRelationship>, ad: Adapters): Option<DecodeError>
  {
    OrElse(FirstRejected(contentResources, ad.content, edges),
    OrElse(FirstRejected(bookmarkResources, ad.bookmark, edges),
    OrElse(FirstRejected(progressionResources, ad.progression, edges),
    OrElse(FirstRejected(domainResources, ad.domain, edges),
    OrElse(FirstRejected(groupResources, ad.group, edges),
    OrElse(FirstRejected(categoryResources, ad.category, edges),
    OrElse(ErrorOf(ad.contentCategories(edges)), ErrorOf(ad.contentDomains(edges)))))))))
  }

  /** The throw that ends the normalisation of `resources` over `edges`, if any. */
  ghost function NormaliseError(resources: seq<Resource>, edges: seq<EntityRelationship>, ad: Adapters): Option<DecodeError>
  {
    PassError(
      OfType(resources, ContentsType), OfType(resources, BookmarksType),
      OfType(resources, ProgressionsType), OfType(resources, DomainsType),
      OfType(resources, GroupsType), OfType(resources, CategoriesType),
      edges, ad)
  }

  /** Every adapter a normalisation pass calls, per resource and for the joins, succeeds. */
  ghost predicate Accepted(resources: seq<Resource>, edges: seq<EntityRelationship>, ad: Adapters)
  {
    (forall i :: 0 <= i < |resources| ==> AdapterError(resources[i], edges, ad).None?) &&
    ad.contentCategories(edges).Success? && ad.contentDomains(edges).Success?
  }

  /** `e` is an error that one of the adapters a normalisation pass calls throws. */
  ghost predicate ThrownBy(resources: seq<Resource>, edges: seq<EntityRelationship>, ad: Adapters, e: DecodeError)
  {
    (exists i :: 0 <= i < |resources| && AdapterError(resources[i], edges, ad) == Some(e)) ||
    ad.contentCategories(edges) == Failure(e) || ad.contentDomains(edges) == Failure(e)
  }

  /**
   * `u` is the normalisation of `resources` over the edge list `edges`: each typed
   * collection holds one entity per resource of its tag, in input order; the join
   * collections are what the join adapters make of the edges; the edge list is
   * stored as it is, and both deletion lists are empty.
   */
  ghost predicate Normalised(u: DataCacheUpdate, resources: seq<Resource>, edges: seq<EntityRelationship>, ad: Adapters)
  {
    Processed(u.contents, OfType(resources, ContentsType), ad.content, edges) &&
    Processed(u.bookmarks, OfType(resources, BookmarksType), ad.bookmark, edges) &&
    Processed(u.progressions, OfType(resources, ProgressionsType), ad.progression, edges) &&
    Processed(u.domains, OfType(resources, DomainsType), ad.domain, edges) &&
    Processed(u.groups, OfType(resources, GroupsType), ad.group, edges) &&
    Processed(u.categories, OfType(resources, CategoriesType), ad.category, edges) &&
    ad.contentCategories(edges) == Success(u.contentCategories) &&
    ad.contentDomains(edges) == Success(u.contentDomains) &&
    u.relationships == edges &&
    u.bookmarkDeletionContentIDs == [] && u.progressionDeletionContentIDs == []
  }

  /**
   * The normalising initialiser: extract the edge list, then build each typed
   * collection by its adapter and the joins from the edges; any throw aborts.
   */
  function FromResources(resources: seq<Resource>, additional: seq<JsonEntityRelationships>, ad: Adapters): (r: Result<DataCacheUpdate, DecodeError>)
    ensures r.Success? <==> Accepted(resources, Relationships(resources, additional), ad)
    ensures r.Success? ==> Normalised(r.value, resources, Relationships(resources, additional), ad)
    ensures r.Failure? ==> ThrownBy(resources, Relationships(resources, additional), ad, r.error)
    ensures ErrorOf(r) == NormaliseError(resources, Relationships(resources, additional), ad)
  {
    var edges := Relationships(resources, additional);
    AcceptedByKind(resources, edges, ad);
    ThrownByKind(resources, edges, ad);
    Build(
      OfType(resources, ContentsType), OfType(resources, BookmarksType),
      OfType(resources, ProgressionsType), OfType(resources, DomainsType),
      OfType(resources, GroupsType), OfType(resources, CategoriesType),
      edges, ad)
  }

  /** The adapter calls of the initialiser, in the code's order, given each kind's resources and the edge list. */
  function Build(
    contentResources: seq<Resource>, bookmarkResources: seq<Resource>, progressionResources: seq<Resource>,
    domainResources: seq<Resource>, groupResources: seq<Resource>, categoryResources: seq<Resource>,
    edges: seq<EntityRelationship>, ad: Adapters): (r: Result<DataCacheUpdate, DecodeError>)
    ensures r.Success? <==>
      (forall i :: 0 <= i < |contentResources| ==> ad.content(contentResources[i], edges).Success?) &&
      (forall i :: 0 <= i < |bookmarkResources| ==> ad.bookmark(bookmarkResources[i], edges).Success?) &&
      (forall i :: 0 <= i < |progressionResources| ==> ad.progression(progressionResources[i], edges).Success?) &&
      (forall i :: 0 <= i < |domainResources| ==> ad.domain(domainResources[i], edges).Success?) &&
      (forall i :: 0 <= i < |groupResources| ==> ad.group(groupResources[i], edges).Success?) &&
      (forall i :: 0 <= i < |categoryResources| ==> ad.category(categoryResources[i], edges).Success?) &&
      ad.contentCategories(edges).Success? && ad.contentDomains(edges).Success?
    ensures r.Success? ==>
      Processed(r.value.contents, contentResources, ad.content, edges) &&
      Processed(r.value.bookmarks, bookmarkResources, ad.bookmark, edges) &&
      Processed(r.value.progressions, progressionResources, ad.progression, edges) &&
      Processed(r.value.domains, domainResources, ad.domain, edges) &&
      Processed(r.value.groups, groupResources, ad.group, edges) &&
      Processed(r.value.categories, categoryResources, ad.category, edges) &&
      ad.contentCategories(edges) == Success(r.value.contentCategories) &&
      ad.contentDomains(edges) == Success(r.value.contentDomains) &&
      r.value.relationships == edges &&
      r.value.bookmarkDeletionContentIDs == [] && r.value.progressionDeletionContentIDs == []
    ensures ErrorOf(r) == PassError(
      contentResources, bookmarkResources, progressionResources,
      domainResources, groupResources, categoryResources, edges, ad)
  {
    var contents :- ProcessAll(contentResources, ad.content, edges);
    var bookmarks :- ProcessAll(bookmarkResources, ad.bookmark, edges);
    var progressions :- ProcessAll(progressionResources, ad.progression, edges);
    var domains :- ProcessAll(domainResources, ad.domain, edges);
    var groups :- ProcessAll(groupResources, ad.group, edges);
    var categories :- ProcessAll(categoryResources, ad.category, edges);
    var contentCategories :- ad.contentCategories(edges);
    var contentDomains :- ad.contentDomains(edges);
    Success(DataCacheUpdate(
      contents, bookmarks, progressions, domains, groups, categories,
      contentCategories, contentDomains, edges, [], []))
  }

  /** Every resource of tag `tag` satisfies `ok`, stated over the filtered list and over the whole list. */
  lemma OfTypeAll(resources: seq<Resource>, tag: string, ok: Resource -> bool)
    ensures (forall i :: 0 <= i < |OfType(resources, tag)| ==> ok(OfType(resources, tag)[i])) <==>
      (forall i :: 0 <= i < |resources| && resources[i].resourceType == tag ==> ok(resources[i]))
  {
    var f := OfType(resources, tag);
    if forall i :: 0 <= i < |f| ==> ok(f[i]) {
      forall i | 0 <= i < |resources| && resources[i].resourceType == tag
        ensures ok(resources[i])
      {
        assert resources[i] in f;
      }
    }
    if forall i :: 0 <= i < |resources| && resources[i].resourceType == tag ==> ok(resources[i]) {
      forall i | 0 <= i < |f|
        ensures ok(f[i])
      {
        assert f[i] in resources && f[i].resourceType == tag;
        var k :| 0 <= k < |resources| && resources[k] == f[i];
      }
    }
  }

  /** The per-kind adapters accept every resource exactly when each kind's filtered list is accepted. */
  lemma AcceptedByKind(resources: seq<Resource>, edges: seq<EntityRelationship>, ad: Adapters)
    ensures (forall i :: 0 <= i < |resources| ==> AdapterError(resources[i], edges, ad).None?) <==>
      (forall i :: 0 <= i < |OfType(resources, ContentsType)| ==> ad.content(OfType(resources, ContentsType)[i], edges).Success?) &&
      (forall i :: 0 <= i < |OfType(resources, BookmarksType)| ==> ad.bookmark(OfType(resources, BookmarksType)[i], edges).Success?) &&
      (forall i :: 0 <= i < |OfType(resources, ProgressionsType)| ==> ad.progression(OfType(resources, ProgressionsType)[i], edges).Success?) &&
      (forall i :: 0 <= i < |OfType(resources, DomainsType)| ==> ad.domain(OfType(resources, DomainsType)[i], edges).Success?) &&
      (forall i :: 0 <= i < |OfType(resources, GroupsType)| ==> ad.group(OfType(resources, GroupsType)[i], edges).Success?) &&
      (forall i :: 0 <= i < |OfType(resources, CategoriesType)| ==> ad.category(OfType(resources, CategoriesType)[i], edges).Success?)
  {
    OfTypeAll(resources, ContentsType, x => ad.content(x, edges).Success?);
    OfTypeAll(resources, BookmarksType, x => ad.bookmark(x, edges).Success?);
    OfTypeAll(resources, ProgressionsType, x => ad.progression(x, edges).Success?);
    OfTypeAll(resources, DomainsType, x => ad.domain(x, edges).Success?);
    OfTypeAll(resources, GroupsType, x => ad.group(x, edges).Success?);
    OfTypeAll(resources, CategoriesType, x => ad.category(x, edges).Success?);
  }

  /** A throw while one kind's filtered list is processed is a throw of that kind's adapter on an input resource. */
  lemma KindThrown<T>(
    resources: seq<Resource>,
    tag: string,
    process: (Resource, seq<EntityRelationship>) -> Result<T, DecodeError>,
    edges: seq<EntityRelationship>,
    ad: Adapters)
    requires forall x: Resource :: x.resourceType == tag ==> AdapterError(x, edges, ad) == ErrorOf(process(x, edges))
    ensures ProcessAll(OfType(resources, tag), process, edges).Failure? ==>
      ThrownBy(resources, edges, ad, ProcessAll(OfType(resources, tag), process, edges).error)
  {
  }

  /** A throw of any of the six per-kind passes is a throw of the whole normalisation pass. */
  lemma ThrownByKind(resources: seq<Resource>, edges: seq<EntityRelationship>, ad: Adapters)
    ensures ProcessAll(OfType(resources, ContentsType), ad.content, edges).Failure? ==>
      ThrownBy(resources, edges, ad, ProcessAll(OfType(resources, ContentsType), ad.content, edges).error)
    ensures ProcessAll(OfType(resources, BookmarksType), ad.bookmark, edges).Failure? ==>
      ThrownBy(resources, edges, ad, ProcessAll(OfType(resources, BookmarksType), ad.bookmark, edges).error)
    ensures ProcessAll(OfType(resources, ProgressionsType), ad.progression, edges).Failure? ==>
      ThrownBy(resources, edges, ad, ProcessAll(OfType(resources, ProgressionsType), ad.progression, edges).error)
    ensures ProcessAll(OfType(resources, DomainsType), ad.domain, edges).Failure? ==>
      ThrownBy(resources, edges, ad, ProcessAll(OfType(resources, DomainsType), ad.domain, edges).error)
    ensures ProcessAll(OfType(resources, GroupsType), ad.group, edges).Failure? ==>
      ThrownBy(resources, edges, ad, ProcessAll(OfType(resources, GroupsType), ad.group, edges).error)
    ensures ProcessAll(OfType(resources, CategoriesType), ad.category, edges).Failure? ==>
      ThrownBy(resources, edges, ad, ProcessAll(OfType(resources, CategoriesType), ad.category, edges).error)
  {
    KindThrown(resources, ContentsType, ad.content, edges, ad);
    KindThrown(resources, BookmarksType, ad.bookmark, edges, ad);
    KindThrown(resources, ProgressionsType, ad.progression, edges, ad);
    KindThrown(resources, DomainsType, ad.domain, edges, ad);
    KindThrown(resources, GroupsType, ad.group, edges, ad);
    KindThrown(resources, CategoriesType, ad.category, edges, ad);
  }

  /** Filtering by tag distributes over concatenation, so it keeps input order. */
  lemma {:induction false} OfTypeAppend(xs: seq<Resource>, ys: seq<Resource>, tag: string)
    ensures OfType(xs + ys, tag) == OfType(xs, tag) + OfType(ys, tag)
    decreases |xs|
  {
    if |xs| == 0 {
      assert xs + ys == ys;
    } else {
      assert (xs + ys)[0] == xs[0];
      assert (xs + ys)[1..] == xs[1..] + ys;
      OfTypeAppend(xs[1..], ys, tag);
    }
  }

  /** A resource of another tag, wherever it stands, does not appear among the resources of tag `tag`. */
  lemma OtherTagFiltered(xs: seq<Resource>, r: Resource, ys: seq<Resource>, tag: string)
    requires r.resourceType != tag
    ensures OfType(xs + [r] + ys, tag) == OfType(xs + ys, tag)
  {
    OfTypeAppend(xs + [r], ys, tag);
    OfTypeAppend(xs, [r], tag);
    OfTypeAppend(xs, ys, tag);
    assert OfType([r], tag) == [];
  }

  /**
   * A resource of an unrecognised type adds no entity to any typed collection,
   * but the edges its own blocks declare are still extracted.
   */
  lemma UnrecognisedTypeAddsNoEntity(xs: seq<Resource>, r: Resource, ys: seq<Resource>, additional: seq<JsonEntityRelationships>, ad: Adapters)
    requires r.resourceType !in KnownTypes
    requires FromResources(xs + [r] + ys, additional, ad).Success?
    ensures Normalised(FromResources(xs + [r] + ys, additional, ad).value, xs + ys, Relationships(xs + [r] + ys, additional), ad)
    ensures r.entityID.Some? ==>
      forall e :: e in EntityRelationshipsOf(r.relationships, r.entityID.value) ==>
        e in FromResources(xs + [r] + ys, additional, ad).value.relationships
  {
    OtherTagFiltered(xs, r, ys, ContentsType);
    OtherTagFiltered(xs, r, ys, BookmarksType);
    OtherTagFiltered(xs, r, ys, ProgressionsType);
    OtherTagFiltered(xs, r, ys, DomainsType);
    OtherTagFiltered(xs, r, ys, GroupsType);
    OtherTagFiltered(xs, r, ys, CategoriesType);
    ResourceEdgesAppend(xs + [r], ys);
    ResourceEdgesAppend(xs, [r]);
  }

  /** A resource of an unrecognised type and with no identity leaves the normalisation exactly as it was. */
  lemma UnrecognisedUnidentifiedIgnored(xs: seq<Resource>, r: Resource, ys: seq<Resource>, additional: seq<JsonEntityRelationships>, ad: Adapters)
    requires r.resourceType !in KnownTypes
    requires r.entityID.None?
    ensures FromResources(xs + [r] + ys, additional, ad) == FromResources(xs + ys, additional, ad)
  {
    UnidentifiedResourceIgnored(xs, r, ys, additional);
    OtherTagFiltered(xs, r, ys, ContentsType);
    OtherTagFiltered(xs, r, ys, BookmarksType);
    OtherTagFiltered(xs, r, ys, ProgressionsType);
    OtherTagFiltered(xs, r, ys, DomainsType);
    OtherTagFiltered(xs, r, ys, GroupsType);
    OtherTagFiltered(xs, r, ys, CategoriesType);
  }

  // ---------------------------------------------------------------------------
  // Merging and loading

  /**
   * `merged(with:)`: every collection and the edge list is this update's list
   * followed by the other's. The deletion lists are not passed on, so they take
   * their default, the empty list.
   */
  function Merged(u: DataCacheUpdate, other: DataCacheUpdate): (r: DataCacheUpdate)
    ensures r.contents == u.contents + other.contents && r.bookmarks == u.bookmarks + other.bookmarks
    ensures r.progressions == u.progressions + other.progressions && r.domains == u.domains + other.domains
    ensures r.groups == u.groups + other.groups && r.categories == u.categories + other.categories
    ensures r.contentCategories == u.contentCategories + other.contentCategories
    ensures r.contentDomains == u.contentDomains + other.contentDomains
    ensures r.relationships == u.relationships + other.relationships
    ensures r.bookmarkDeletionContentIDs == [] && r.progressionDeletionContentIDs == []
  {
    DataCacheUpdate(
      contents := u.contents + other.contents,
      bookmarks := u.bookmarks + other.bookmarks,
      progressions := u.progressions + other.progressions,
      domains := u.domains + other.domains,
      groups := u.groups + other.groups,
      categories := u.categories + other.categories,
      contentCategories := u.contentCategories + other.contentCategories,
      contentDomains := u.contentDomains + other.contentDomains,
      relationships := u.relationships + other.relationships,
      bookmarkDeletionContentIDs := [],
      progressionDeletionContentIDs := [])
  }

  /** Merging is associative, on every field of the update. */
  lemma MergedAssociative(a: DataCacheUpdate, b: DataCacheUpdate, c: DataCacheUpdate)
    ensures Merged(Merged(a, b), c) == Merged(a, Merged(b, c))
  {
  }

  /**
   * The empty update is a unit of merging exactly for the updates whose deletion
   * lists are empty: merging loses any deletion list, on either side.
   */
  lemma MergedUnit(u: DataCacheUpdate)
    ensures Merged(Empty(), u) == u <==> u.bookmarkDeletionContentIDs == [] && u.progressionDeletionContentIDs == []
    ensures Merged(u, Empty()) == u <==> u.bookmarkDeletionContentIDs == [] && u.progressionDeletionContentIDs == []
  {
  }

  /**
   * `loadFrom(document:)`: normalise `data` alone, then `included` seeded with
   * each `data` resource's identity and blocks, then merge the two, `data` first.
   */
  function LoadFrom(document: Document, ad: Adapters): (r: Result<DataCacheUpdate, DecodeError>)
    ensures r.Success? <==>
      Accepted(document.data, ResourceEdges(document.data), ad) &&
      Accepted(document.included, ResourceEdges(document.data) + ResourceEdges(document.included), ad)
    ensures r.Success? ==>
      r.value.relationships == ResourceEdges(document.data) + ResourceEdges(document.data) + ResourceEdges(document.included)
    ensures r.Success? ==>
      exists d, i ::
        Normalised(d, document.data, ResourceEdges(document.data), ad) &&
        Normalised(i, document.included, ResourceEdges(document.data) + ResourceEdges(document.included), ad) &&
        r.value == Merged(d, i)
    ensures r.Success? ==> r.value.bookmarkDeletionContentIDs == [] && r.value.progressionDeletionContentIDs == []
    ensures !Accepted(document.data, ResourceEdges(document.data), ad) ==>
      r.Failure? && ThrownBy(document.data, ResourceEdges(document.data), ad, r.error)
    ensures r.Failure? ==>
      ThrownBy(document.data, ResourceEdges(document.data), ad, r.error) ||
      ThrownBy(document.included, ResourceEdges(document.data) + ResourceEdges(document.included), ad, r.error)
    ensures ErrorOf(r) == OrElse(
      NormaliseError(document.data, ResourceEdges(document.data), ad),
      NormaliseError(document.included, ResourceEdges(document.data) + ResourceEdges(document.included), ad))
  {
    assert Relationships(document.data, []) == ResourceEdges(document.data);
    var data :- FromResources(document.data, [], ad);
    var included :- FromResources(document.included, AsSeeds(document.data), ad);
    Success(Merged(data, included))
  }

  /**
   * A document with no resources loads into an update with nothing in it, as
   * long as the join adapters make nothing of an empty edge list.
   */
  lemma LoadFromEmptyDocument(ad: Adapters)
    requires ad.contentCategories([]) == Success([])
    requires ad.contentDomains([]) == Success([])
    ensures LoadFrom(Document([], []), ad) == Success(Empty())
  {
  }

  /**
   * A primary content resource (id 1) whose `categories` block refers to a
   * category (id 9) that is side-loaded. The edge declared on the content is
   * extracted by both passes, so it appears twice, and both passes hand it to
   * the join adapters.
   */
  lemma LoadFromContentWithCategory(ad: Adapters, stubAttributes: Attributes, contentAttributes: Attributes, categoryAttributes: Attributes)
    ensures
      var content := EntityIdentity(ContentsType, 1);
      var category := EntityIdentity(CategoriesType, 9);
      var c := Resource(ContentsType, Some(content), contentAttributes,
        [Relationship("categories", [Resource(CategoriesType, Some(category), stubAttributes, [])])]);
      var k := Resource(CategoriesType, Some(category), categoryAttributes, []);
      var edge := EntityRelationship("categories", content, category);
      var r := LoadFrom(Document([c], [k]), ad);
      (r.Success? <==>
        ad.content(c, [edge]).Success? && ad.category(k, [edge]).Success? &&
        ad.contentCategories([edge]).Success? && ad.contentDomains([edge]).Success?) &&
      (r.Success? ==>
        r.value.contents == [ad.content(c, [edge]).value] &&
        r.value.categories == [ad.category(k, [edge]).value] &&
        r.value.bookmarks == [] && r.value.progressions == [] && r.value.domains == [] && r.value.groups == [] &&
        r.value.contentCategories == ad.contentCategories([edge]).value + ad.contentCategories([edge]).value &&
        r.value.contentDomains == ad.contentDomains([edge]).value + ad.contentDomains([edge]).value &&
        r.value.relationships == [edge, edge] &&
        r.value.bookmarkDeletionContentIDs == [] && r.value.progressionDeletionContentIDs == [])
  {
    var content := EntityIdentity(ContentsType, 1);
    var category := EntityIdentity(CategoriesType, 9);
    var stub := Resource(CategoriesType, Some(category), stubAttributes, []);
    var c := Resource(ContentsType, Some(content), contentAttributes, [Relationship("categories", [stub])]);
    var k := Resource(CategoriesType, Some(category), categoryAttributes, []);
    var edge := EntityRelationship("categories", content, category);
    assert Identities([stub]) == [category];
    assert EdgesTo("categories", content, [stub]) == [edge];
    assert EntityRelationshipsOf(c.relationships, content) == [edge];
    assert ResourceEdges([c]) == [edge];
    assert Relationships([c], []) == [edge];
    assert ResourceEdges([k]) == [];
    assert Relationships([k], AsSeeds([c])) == [edge];
    assert OfType([c], ContentsType) == [c];
    assert OfType([c], BookmarksType) == [] && OfType([c], ProgressionsType) == [];
    assert OfType([c], DomainsType) == [] && OfType([c], GroupsType) == [] && OfType([c], CategoriesType) == [];
    assert OfType([k], CategoriesType) == [k];
    assert OfType([k], ContentsType) == [] && OfType([k], BookmarksType) == [] && OfType([k], ProgressionsType) == [];
    assert OfType([k], DomainsType) == [] && OfType([k], GroupsType) == [];
    assert FromResources([c], [], ad) == Build([c], [], [], [], [], [], [edge], ad);
    assert FromResources([k], AsSeeds([c]), ad) == Build([], [], [], [], [], [k], [edge], ad);
    var d := Build([c], [], [], [], [], [], [edge], ad);
    var i := Build([], [], [], [], [], [k], [edge], ad);
    assert d.Success? <==> (ad.content(c, [edge]).Success? &&
      ad.contentCategories([edge]).Success? && ad.contentDomains([edge]).Success?);
    assert i.Success? <==> (ad.category(k, [edge]).Success? &&
      ad.contentCategories([edge]).Success? && ad.contentDomains([edge]).Success?);
    var r := LoadFrom(Document([c], [k]), ad);
    assert r == if d.Failure? then Failure(d.error) else if i.Failure? then Failure(i.error) else Success(Merged(d.value, i.value));
    if r.Success? {
      assert d.value.contents == [ad.content(c, [edge]).value] && d.value.categories == [];
      assert i.value.contents == [] && i.value.categories == [ad.category(k, [edge]).value];
    }
  }
}
