/**
 * The decoded JSON:API wire objects the normaliser reads. How they are parsed
 * from JSON, and how a resource's identity is computed from its `type` and `id`,
 * lie outside the model: the identity is a field that may be absent.
 */
module JsonApi {
  import opened Wrappers

  /** The identity of an entity: its kind tag and its numeric id. */
  datatype EntityIdentity = EntityIdentity(entityType: string, id: int)

  /** The attribute bag of a resource; only the per-kind adapters look inside it. */
  type Attributes(!new)

  /**
   * One resource object, either a full resource of `data` or `included`, or an
   * identity-only reference inside a relationship block.
   */
  datatype Resource = Resource(
    resourceType: string,
    entityID: Option<EntityIdentity>,
    attributes: Attributes,
    relationships: seq<Relationship>)

  /** A relationship block: its label and the resources it refers to, in order. */
  datatype Relationship = Relationship(relationshipType: string, data: seq<Resource>)

  /** A response document: the primary resources and the side-loaded ones. */
  datatype Document = Document(data: seq<Resource>, included: seq<Resource>)
}
