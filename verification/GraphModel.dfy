// The data of the graph strategy: ask/search/graph_strategy.py.
module GraphModel {
  import opened Basics

  datatype NodeType = ENTITY | OTHER_NODE(code: int)

  // FrozenRelationNode
  datatype Node = Node(ntype: NodeType, subtype: string, value: string)

  datatype Direction = OUT | IN

  // The paragraph a relation was extracted from.
  datatype Paragraph = Paragraph(field: string, start: nat, end: nat)

  // A relation of some entity (the key it is stored under) to `entity`.
  datatype Relation = Relation(
    entity: string, entityType: NodeType, entitySubtype: string, name: string, direction: Direction,
    paragraph: Option<Paragraph>, resource: string)

  type Relations = map<string, seq<Relation>>

  datatype Triple = Triple(head: string, name: string, tail: string)

  // The relation read from its head to its tail.
  function TripleOf(ent: string, rel: Relation): Triple {
    if rel.direction == OUT then Triple(ent, rel.name, rel.entity) else Triple(rel.entity, rel.name, ent)
  }

  // Every entity of a is one of b, and so is every relation, under the same entity.
  ghost predicate SubRelations(a: Relations, b: Relations) {
    && a.Keys <= b.Keys
    && forall ent, rel :: ent in a && rel in a[ent] ==> rel in b[ent]
  }
}
