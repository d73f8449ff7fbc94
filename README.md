# DataCacheUpdate: a Dafny model of Emitron's JSON:API normaliser

Emitron's networking layer turns each JSON:API response into a `DataCacheUpdate`.
This record holds six typed entity collections (contents, bookmarks, progressions,
domains, groups, categories), two join collections (content–category and
content–domain associations), one flat list of relationship edges, and two
deletion-ID lists. This project models how such an update is built, merged and
loaded, and proves properties of the model:

- `wrappers.dfy` (`Wrappers`): `Option` for Swift optionals and `Result` for calls that `throw`.
- `json_api.dfy` (`JsonApi`): the decoded wire objects. A resource has a type tag,
  an optional `EntityIdentity`, an opaque attribute bag and its relationship blocks.
  Each block has a label and a list of referenced resources.
- `edges.dfy` (`Edges`): edge extraction, `relationships(from:with:)` and
  `entityRelationships(from:fromEntity:)`, with lemmas on order, filtering and membership.
- `data_cache.dfy` (`DataCache`): the update record, the normalising initialiser
  `init(resources:relationships:)` (`FromResources`), `merged(with:)` (`Merged`) and
  `loadFrom(document:)` (`LoadFrom`).

The model is pure: every Swift `filter`/`map`/`flatMap`/`compactMap` pipeline is a
recursive function over `seq`, and `+` is sequence concatenation. The per-kind
adapters are defined outside this file, so they are arrow-typed fields of an
`Adapters` record. Each returns `Result<_, DecodeError>`, so the model holds for
every choice of adapters. The entity types and `DecodeError` are opaque types.

Behaviour of the code that the model keeps as written:

- `merged(with:)` does not pass the two deletion lists, so every merge has them
  empty; they are not concatenated (DataCacheUpdate.swift:55-66, 110-120). `Merged`
  drops them, and `MergedUnit` shows the consequence.
- `loadFrom` extracts the edges declared on `data` resources twice: once in the
  `data` pass, and once in the `included` pass through the seed pairs (lines 46-53).
  The loaded `relationships` is edges(data) ++ edges(data) ++ edges(included). A
  `data` content with one category yields that edge twice, and the join adapters
  see it in both passes (`LoadFromContentWithCategory`).
- The join adapters are called with `try` (lines 101-102) and may throw.
- Nothing is deduplicated.

## Model

| member | source | states |
|---|---|---|
| `Edges.Identities` | Emitron/Emitron/Networking/Adapters/DataCacheUpdate.swift:143-144 | the identities of the references that carry one: never more than the references, exactly as many when every reference has one, and an identity is listed iff some reference carries it |
| `Edges.EdgesTo` | Emitron/Emitron/Networking/Adapters/DataCacheUpdate.swift:143-150 | a block yields exactly one edge per reference with an identity, in reference order: edge i is (block label, subject, i-th identity) |
| `Edges.EdgesToMembership` | Emitron/Emitron/Networking/Adapters/DataCacheUpdate.swift:143-150 | an edge comes out of a block iff it carries the block's label and the subject, and its target is the identity of some reference in the block |
| `Edges.EntityRelationshipsOf` | Emitron/Emitron/Networking/Adapters/DataCacheUpdate.swift:138-152 | every edge extracted from a subject's blocks has that subject as `from` |
| `Edges.EntityRelationshipsOfMembership` | Emitron/Emitron/Networking/Adapters/DataCacheUpdate.swift:142-150 | an edge is extracted from a subject's blocks iff one of the blocks declares it (label = name, from = subject, some reference's identity = to) |
| `Edges.EntityRelationshipsOfAppend` | Emitron/Emitron/Networking/Adapters/DataCacheUpdate.swift:142 | blocks contribute their edges block by block, in block order |
| `Edges.IdentitiesAppend` | Emitron/Emitron/Networking/Adapters/DataCacheUpdate.swift:143-144 | the identities of joined reference lists are the first list's followed by the second's |
| `Edges.EdgesToAppend` | Emitron/Emitron/Networking/Adapters/DataCacheUpdate.swift:143-150 | a block's edges over joined reference lists are the first list's edges followed by the second's |
| `Edges.SeedEdgesAppend` | Emitron/Emitron/Networking/Adapters/DataCacheUpdate.swift:127-130 | seed pairs contribute their edges pair by pair, in seed order |
| `Edges.ResourceEdgesAppend` | Emitron/Emitron/Networking/Adapters/DataCacheUpdate.swift:131-134 | resources contribute their edges resource by resource, in resource order |
| `Edges.SeedEdges` | Emitron/Emitron/Networking/Adapters/DataCacheUpdate.swift:127-130 | every edge of the seed pairs is owned by (has as `from`) the identity of one of the seed pairs |
| `Edges.ResourceEdges` | Emitron/Emitron/Networking/Adapters/DataCacheUpdate.swift:131-134 | every edge of the resources is owned by the identity of one of the resources |
| `Edges.Relationships` | Emitron/Emitron/Networking/Adapters/DataCacheUpdate.swift:123-136 | every extracted edge is owned by the identity of a seed pair or a resource passed in; ordering and exact membership are in `RelationshipsAsSeeds` and `RelationshipsMembership` |
| `Edges.AsSeeds` | Emitron/Emitron/Networking/Adapters/DataCacheUpdate.swift:50 | one seed pair per `data` resource, carrying its identity and its blocks, in order; as seed pairs the resources contribute exactly the edges they contribute as resources |
| `Edges.RelationshipsAsSeeds` | Emitron/Emitron/Networking/Adapters/DataCacheUpdate.swift:127-135 | the extracted list is the edges of the seed pairs followed by those of the resources viewed as seed pairs: seed edges come first |
| `Edges.UnidentifiedReferenceIgnored` | Emitron/Emitron/Networking/Adapters/DataCacheUpdate.swift:144 | a reference without an identity, wherever it stands, contributes no edge |
| `Edges.UnidentifiedSeedIgnored` | Emitron/Emitron/Networking/Adapters/DataCacheUpdate.swift:128 | a seed pair without an identity, wherever it stands, contributes no edge |
| `Edges.UnidentifiedResourceIgnored` | Emitron/Emitron/Networking/Adapters/DataCacheUpdate.swift:132 | a resource without an identity, wherever it stands, contributes no edge |
| `Edges.SeedEdgesMembership` | Emitron/Emitron/Networking/Adapters/DataCacheUpdate.swift:127-130 | an edge comes from the seed pairs iff some seed pair with an identity declares it |
| `Edges.RelationshipsMembership` | Emitron/Emitron/Networking/Adapters/DataCacheUpdate.swift:123-136 | an edge is extracted iff a seed pair or a resource with an identity declares it; no edge is invented and none declared is lost |
| `DataCache.OfType` | Emitron/Emitron/Networking/Adapters/DataCacheUpdate.swift:84 | the filtered list holds exactly the input resources with the given tag, no more of them than the input |
| `DataCache.OfTypeAppend` | Emitron/Emitron/Networking/Adapters/DataCacheUpdate.swift:83-100 | filtering by tag keeps input order: it distributes over concatenation |
| `DataCache.OtherTagFiltered` | Emitron/Emitron/Networking/Adapters/DataCacheUpdate.swift:83-100 | a resource of another tag, wherever it stands, is not among the resources of a tag |
| `DataCache.ProcessAll` | Emitron/Emitron/Networking/Adapters/DataCacheUpdate.swift:85 | the throwing `map`: succeeds iff the adapter succeeds on every resource, then yields one entity per resource in order; on failure the error is the adapter's error on the first resource, in input order, that it rejects |
| `DataCache.AdapterError` | Emitron/Emitron/Networking/Adapters/DataCacheUpdate.swift:83-100 | tag dispatch: a resource whose tag is not one of the six known tags is never rejected; one with a known tag is rejected iff the adapter for that tag fails on it |
| `DataCache.Build` | Emitron/Emitron/Networking/Adapters/DataCacheUpdate.swift:83-106 | given each kind's resources and the edge list: succeeds iff every per-kind call and both join calls succeed; then each collection holds one entity per resource, in order, the joins are the join adapters' results, `relationships` is the edge list and both deletion lists are empty; on failure the error is the first throw in the code's order (contents, bookmarks, progressions, domains, groups, categories, each in input order, then the content-category and content-domain joins) |
| `DataCache.AcceptedByKind` | Emitron/Emitron/Networking/Adapters/DataCacheUpdate.swift:83-100 | the adapter for each resource's tag accepts every resource iff each kind's adapter accepts every resource of its filtered list |
| `DataCache.FromResources` | Emitron/Emitron/Networking/Adapters/DataCacheUpdate.swift:81-107 | all or nothing: succeeds iff every adapter called (per resource by its tag, and both joins) succeeds; on success each typed collection has one entity per resource of its tag in input order, the joins are the join adapters' results on the edge list, `relationships` is exactly the extracted edge list and both deletion lists are empty; on failure the error is the first throw in the code's order (kinds contents through categories, each over its resources in input order, then the two joins) |
| `DataCache.UnrecognisedTypeAddsNoEntity` | Emitron/Emitron/Networking/Adapters/DataCacheUpdate.swift:82-100 | a resource of an unrecognised tag adds nothing to any typed collection, yet the edges its blocks declare are still in `relationships` |
| `DataCache.UnrecognisedUnidentifiedIgnored` | Emitron/Emitron/Networking/Adapters/DataCacheUpdate.swift:81-107 | a resource of an unrecognised tag and without an identity leaves the normalisation unchanged |
| `DataCache.Merged` | Emitron/Emitron/Networking/Adapters/DataCacheUpdate.swift:109-121 | all nine collections are this update's list followed by the other's; both deletion lists are empty whatever the inputs held |
| `DataCache.MergedAssociative` | Emitron/Emitron/Networking/Adapters/DataCacheUpdate.swift:109-121 | merging is associative, on the whole update |
| `DataCache.MergedUnit` | Emitron/Emitron/Networking/Adapters/DataCacheUpdate.swift:110-120 | the empty update is a left and right unit of merging exactly for updates whose deletion lists are empty |
| `DataCache.LoadFrom` | Emitron/Emitron/Networking/Adapters/DataCacheUpdate.swift:46-53 | succeeds iff both passes' adapters all succeed (the `data` pass over edges(data), the `included` pass over edges(data) ++ edges(included)); then it is the merge of the two normalisations, data first, its `relationships` is edges(data) ++ edges(data) ++ edges(included) and its deletion lists are empty; on failure the error is the `data` pass's first throw if that pass fails, otherwise the `included` pass's first throw |
| `DataCache.LoadFromEmptyDocument` | Emitron/Emitron/Networking/Adapters/DataCacheUpdate.swift:46-53 | an empty document loads into the empty update when the join adapters make nothing of no edges |
| `DataCache.LoadFromContentWithCategory` | Emitron/Emitron/Networking/Adapters/DataCacheUpdate.swift:46-53 | one content (id 1) in `data` referring to one side-loaded category (id 9): the load succeeds iff the four adapters concerned accept; it then holds one content, one category, no other typed entity, the edge (categories, content 1, category 9) twice, each join adapter's result twice, and empty deletion lists |

## Left out

- The per-kind and join adapters (`ContentAdapter` … `ContentDomainAdapter`) are defined elsewhere. They are arbitrary functions passed in the `Adapters` record.
- JSON parsing of the document, resources and relationship blocks is left out. So is the computation of `entityID` from a resource's `type` and `id`; it is an optional field.
- The fields of the entity types and of a resource's attributes are opaque types.
- The memberwise initialiser (lines 55-79) is the datatype constructor `DataCacheUpdate`. `Empty` is that initialiser with every argument defaulted. Neither has a contract of its own.
- Persistence of the update and network transport are outside this file.
- Swift's `throws` is a `Result`. The model does not capture the control flow of a throw, only its outcome.
