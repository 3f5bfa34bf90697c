/**
  The logical model: domains of entities, each entity with ordered properties
  and ordered relations to other entities.  All child lists are ordered
  sequences; an entity, domain or model built without children has empty ones.
 */
module LogicalDomain {

  /** A reference from the owning entity to `entityName` in `domainName`, in a named role. */
  datatype Relation = Relation(role: string, domainName: string, entityName: string)

  /** A scalar attribute of an entity with a logical datatype such as "string". */
  datatype Property = Property(name: string, dataType: string)

  datatype Entity = Entity(name: string, properties: seq<Property>, relations: seq<Relation>)

  datatype Domain = Domain(name: string, entities: seq<Entity>)

  datatype LogicalModel = LogicalModel(domains: seq<Domain>)

  /** An entity built from its name alone. */
  function NewEntity(name: string): (e: Entity)
    ensures e.name == name && e.properties == [] && e.relations == []
  {
    Entity(name, [], [])
  }

  /** A domain built from its name alone. */
  function NewDomain(name: string): (d: Domain)
    ensures d.name == name && d.entities == []
  {
    Domain(name, [])
  }

  /** A model built without arguments. */
  function NewLogicalModel(): (m: LogicalModel)
    ensures m.domains == []
  {
    LogicalModel([])
  }
}
