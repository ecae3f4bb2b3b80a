/** The rows of the graph store and the ordered queries the program asks of one snapshot
    (graph_store.rs). */
module GraphModel {
  import opened Wrappers
  import opened Ordering
  import opened SchemaModel

  /** A node's JSON payload stands for the object the builder serialised, with its annotation. */
  datatype NodePayload = NodePayload(content: GraphObject, annotation: Option<ObjectAnnotation>)

  datatype GraphObject =
    | OfDatabase(database: DatabaseObject)
    | OfSchema(schema: SchemaObject)
    | OfTable(table: TableObject)
    | OfColumn(column: ColumnObject)
    | OfConstraint(constraint: ConstraintObject)
    | OfIndex(index: IndexObject)
    | OfView(view: ViewObject)
    | OfTrigger(trigger: TriggerObject)
    | OfRoutine(routine: RoutineObject)
    | OfMetadata(metadata: MetadataObject)

  datatype EdgePayload = OfEdgeType(edgeType: string) | OfRelationship(relationship: MetadataRelationship)

  datatype NodeRecord = NodeRecord(
    snapshotKey: string, nodeKey: string, nodeLabel: string, displayName: Option<string>, payload: NodePayload)

  datatype EdgeRecord = EdgeRecord(
    snapshotKey: string, edgeKey: string, edgeFrom: string, edgeTo: string, edgeType: string, payload: EdgePayload)

  /** The node and edge rows of one snapshot, by primary key. */
  datatype Rows = Rows(nodes: map<string, NodeRecord>, edges: map<string, EdgeRecord>)

  ghost predicate Keyed(rows: Rows) {
    && (forall k :: k in rows.nodes ==> rows.nodes[k].nodeKey == k)
    && (forall k :: k in rows.edges ==> rows.edges[k].edgeKey == k)
  }

  type Graph = rows: Rows | Keyed(rows) witness Rows(map[], map[])

  // ---------------------------------------------------------------- queries

  function OutRows(g: Graph, node: string): set<EdgeRecord> {
    set k | k in g.edges && g.edges[k].edgeFrom == node :: g.edges[k]
  }

  function InRows(g: Graph, node: string): set<EdgeRecord> {
    set k | k in g.edges && g.edges[k].edgeTo == node :: g.edges[k]
  }

  /** The CASE expression of the limited queries, and `traversal_edge_priority`. */
  function Priority(edgeType: string): nat {
    if edgeType in {"DATABASE_HAS_SCHEMA", "SCHEMA_HAS_TABLE", "SCHEMA_HAS_VIEW", "SCHEMA_HAS_ROUTINE",
                    "TABLE_HAS_COLUMN"} then 2
    else if edgeType == "TABLE_HAS_INDEX" then 1
    else 0
  }

  function ByEdgeKey(edge: EdgeRecord): SortKey { ByText(edge.edgeKey) }

  function ByPriority(edge: EdgeRecord): SortKey { SortKey(Priority(edge.edgeType), [edge.edgeKey], 0) }

  function ByNodeKey(node: NodeRecord): SortKey { ByText(node.nodeKey) }

  lemma EdgeKeysDistinguish(g: Graph, rows: set<EdgeRecord>)
    requires rows <= g.edges.Values
    ensures Distinguishes(rows, ByEdgeKey) && Distinguishes(rows, ByPriority)
  {
    forall x, y | x in rows && y in rows && (ByEdgeKey(x) == ByEdgeKey(y) || ByPriority(x) == ByPriority(y))
      ensures x == y {
      assert [x.edgeKey][0] == [y.edgeKey][0];
    }
  }

  function EdgesFrom(g: Graph, node: string): seq<EdgeRecord> {
    EdgeKeysDistinguish(g, OutRows(g, node));
    OrderBy(OutRows(g, node), ByEdgeKey)
  }

  function EdgesTo(g: Graph, node: string): seq<EdgeRecord> {
    EdgeKeysDistinguish(g, InRows(g, node));
    OrderBy(InRows(g, node), ByEdgeKey)
  }

  function EdgesFromLimited(g: Graph, node: string, limit: nat): seq<EdgeRecord> {
    EdgeKeysDistinguish(g, OutRows(g, node));
    Take(OrderBy(OutRows(g, node), ByPriority), limit)
  }

  function EdgesToLimited(g: Graph, node: string, limit: nat): seq<EdgeRecord> {
    EdgeKeysDistinguish(g, InRows(g, node));
    Take(OrderBy(InRows(g, node), ByPriority), limit)
  }

  /** The edge rows of one type, as the `..._by_type_limited` queries select them. */
  function OfType(g: Graph, edgeType: string): Graph {
    g.(edges := map k | k in g.edges && g.edges[k].edgeType == edgeType :: g.edges[k])
  }

  function EdgesFromByTypeLimited(g: Graph, node: string, edgeType: string, limit: nat): seq<EdgeRecord> {
    Take(EdgesFrom(OfType(g, edgeType), node), limit)
  }

  function EdgesToByTypeLimited(g: Graph, node: string, edgeType: string, limit: nat): seq<EdgeRecord> {
    Take(EdgesTo(OfType(g, edgeType), node), limit)
  }
}
