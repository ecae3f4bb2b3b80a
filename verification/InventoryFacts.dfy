/** What the stored graph of a snapshot says about a table, edge by edge
    (graph_builder.rs, crates/database-memory-cli/src/metadata.rs). */
module InventoryFacts {
  import opened Wrappers
  import opened Lists
  import opened Ordering
  import opened ObjectKeys
  import opened SchemaModel
  import opened SnapshotRules
  import opened CanonicalRules
  import opened Canonical
  import opened GraphModel
  import opened Projection
  import opened ProjectionClosure
  import opened EdgeTexts
  import opened GraphBuilder
  import opened AliasDiff

  /** A graph as it is stored for a certified snapshot: canonical, without colliding edge texts. */
  ghost predicate Indexed(g: Graph, snapshotKey: string, s: CanonicalSchemaSnapshot) {
    && CanonicalWellFormed(s) && Normalize(s) == s
    && NoDuplicates(Texts(EdgePlan(s))) && g == GraphOf(snapshotKey, s)
  }

  lemma IndexedParts(g: Graph, snapshotKey: string, s: CanonicalSchemaSnapshot)
    requires Indexed(g, snapshotKey, s)
    ensures CanonicalWellFormed(s) && Normalize(s) == s && g == GraphOf(snapshotKey, s)
  {
  }

  // -------------------------------------------------------------------- nodes

  lemma StoredNode(g: Graph, snapshotKey: string, s: CanonicalSchemaSnapshot, n: PlannedNode)
    requires Indexed(g, snapshotKey, s) && n in NodesInOrder(s)
    ensures Print(n.key) in g.nodes && g.nodes[Print(n.key)] == NodeRowOf(snapshotKey, s.metadata.annotations, n)
  {
    PlanItems(s);
    NodeKeysDistinct(s);
    NodeOfPlan(snapshotKey, s.metadata.annotations, NodePlan(s), NodeRows(snapshotKey, s), g, n);
  }

  lemma NodeOfPlan(snapshotKey: string, annotations: seq<ObjectAnnotation>, plan: seq<PlannedNode>,
                   rows: seq<NodeRecord>, g: Graph, n: PlannedNode)
    requires rows == MapSeq((m: PlannedNode) => NodeRowOf(snapshotKey, annotations, m), plan)
    requires NoDuplicates(MapSeq(KeyOfNode, plan)) && g.nodes == Upserted(rows, RowNodeKey) && n in plan
    ensures Print(n.key) in g.nodes && g.nodes[Print(n.key)] == NodeRowOf(snapshotKey, annotations, n)
  {
    RowKeysDistinct(snapshotKey, annotations, plan, rows);
    var i :| 0 <= i < |plan| && plan[i] == n;
    assert rows[i] == NodeRowOf(snapshotKey, annotations, n) && rows[i] in rows;
    UpsertedFind(rows, RowNodeKey, g.nodes, rows[i]);
  }

  // -------------------------------------------------------------------- edges

  /** A planned edge is stored as its row. */
  lemma StoredEdge(g: Graph, snapshotKey: string, s: CanonicalSchemaSnapshot, e: PlannedEdge)
    requires Indexed(g, snapshotKey, s) && e in EdgesInOrder(s)
    ensures EdgeRowOf(snapshotKey, e) in g.edges.Values
  {
    PlanItems(s);
    RowTextsArePlanned(snapshotKey, EdgePlan(s), EdgeRows(snapshotKey, s));
    ValuesAreRows(EdgeRows(snapshotKey, s), RowEdgeKey, g.edges);
    RowOfPlan(snapshotKey, EdgePlan(s), EdgeRows(snapshotKey, s), e);
  }

  /** A planned edge has its row, found from either end. */
  lemma RowStored(g: Graph, snapshotKey: string, s: CanonicalSchemaSnapshot, e: PlannedEdge) returns (r: EdgeRecord)
    requires Indexed(g, snapshotKey, s) && e in EdgesInOrder(s)
    ensures r == EdgeRowOf(snapshotKey, e) && r in InRows(g, Print(e.to)) && r in OutRows(g, Print(e.from))
  {
    hide Indexed, EdgesInOrder;
    StoredEdge(g, snapshotKey, s, e);
    r := EdgeRowOf(snapshotKey, e);
  }

  lemma RowOfPlan(snapshotKey: string, plan: seq<PlannedEdge>, rows: seq<EdgeRecord>, e: PlannedEdge)
    requires rows == MapSeq((x: PlannedEdge) => EdgeRowOf(snapshotKey, x), plan) && e in plan
    ensures EdgeRowOf(snapshotKey, e) in rows
  {
    var i :| 0 <= i < |plan| && plan[i] == e;
    assert rows[i] == EdgeRowOf(snapshotKey, e);
  }

  /** A stored row is that of a planned edge. */
  lemma PlannedOf(g: Graph, snapshotKey: string, s: CanonicalSchemaSnapshot, r: EdgeRecord) returns (e: PlannedEdge)
    requires Indexed(g, snapshotKey, s) && r in g.edges.Values
    ensures e in EdgesInOrder(s) && r == EdgeRowOf(snapshotKey, e)
  {
    PlanItems(s);
    RowTextsArePlanned(snapshotKey, EdgePlan(s), EdgeRows(snapshotKey, s));
    ValuesAreRows(EdgeRows(snapshotKey, s), RowEdgeKey, g.edges);
    e := PlanOfRow(snapshotKey, EdgePlan(s), EdgeRows(snapshotKey, s), r);
  }

  lemma PlanOfRow(snapshotKey: string, plan: seq<PlannedEdge>, rows: seq<EdgeRecord>, r: EdgeRecord)
    returns (e: PlannedEdge)
    requires rows == MapSeq((x: PlannedEdge) => EdgeRowOf(snapshotKey, x), plan) && r in rows
    ensures e in plan && r == EdgeRowOf(snapshotKey, e)
  {
    var i :| 0 <= i < |rows| && rows[i] == r;
    e := plan[i];
  }

  lemma ExtensionHasColon(kind: EdgeKind)
    ensures IsExtension(kind) ==> ':' in EdgeType(kind)
  {
    if IsExtension(kind) { assert EdgeType(kind)[9] == ':'; }
  }

  /** An edge type written without an extension name belongs to one kind. */
  lemma KindOfType(kind: EdgeKind, plain: EdgeKind)
    requires EdgeType(kind) == EdgeType(plain) && !plain.Related?
    ensures kind == plain
  {
    TypeHeadShape(plain);
    ExtensionHasColon(kind);
    TypeHeadInjective(kind, plain);
  }

  // ------------------------------------------------------------ where from

  lemma PieceOf(s: CanonicalSchemaSnapshot, e: PlannedEdge)
    requires CanonicalWellFormed(s) && e in EdgesInOrder(s) && Stage(e.kind) < 8
    ensures Stage(e.kind) == 2 ==> e in FlatMap(s.schema.columns, ColumnEdges)
    ensures Stage(e.kind) == 3 ==> e in FlatMap(s.schema.constraints, ConstraintEdges)
    ensures Stage(e.kind) == 4 ==> e in FlatMap(s.schema.indexes, IndexEdges)
    ensures Stage(e.kind) == 5 ==> e in FlatMap(s.schema.views, ViewEdges)
    ensures Stage(e.kind) == 6 ==> e in FlatMap(s.schema.triggers, TriggerEdges)
    ensures Stage(e.kind) == 7 ==> e in FlatMap(s.schema.routines, RoutineEdges)
  {
    FirstStages(s.schema);
    ListStages(s.schema, KnownKeys(Entries(s.schema)));
    ParentStage(s);
    NotMetadata(s.metadata, e);
  }

  lemma NotMetadata(m: CanonicalMetadata, e: PlannedEdge)
    requires Staged(FlatMap(m.objects, ParentEdges), 8, 9) && Stage(e.kind) < 8
    ensures e !in MetadataEdges(m)
  {
    var related := MapSeq(RelationshipEdge, m.relationships);
    forall i | 0 <= i < |related| ensures related[i].kind.Related? {
      assert related[i] == RelationshipEdge(m.relationships[i]);
    }
  }

  lemma ViewPiece(s: CanonicalSchemaSnapshot, e: PlannedEdge)
    requires CanonicalWellFormed(s) && e in EdgesInOrder(s) && Stage(e.kind) == 5
    ensures e in FlatMap(s.schema.views, ViewEdges)
  {
    hide CanonicalWellFormed;
    PieceOf(s, e);
  }

  lemma TriggerPiece(s: CanonicalSchemaSnapshot, e: PlannedEdge)
    requires CanonicalWellFormed(s) && e in EdgesInOrder(s) && Stage(e.kind) == 6
    ensures e in FlatMap(s.schema.triggers, TriggerEdges)
  {
    hide CanonicalWellFormed;
    PieceOf(s, e);
  }

  lemma RoutinePiece(s: CanonicalSchemaSnapshot, e: PlannedEdge)
    requires CanonicalWellFormed(s) && e in EdgesInOrder(s) && Stage(e.kind) == 7
    ensures e in FlatMap(s.schema.routines, RoutineEdges)
  {
    hide CanonicalWellFormed;
    PieceOf(s, e);
  }

  lemma TypedPlanned(s: CanonicalSchemaSnapshot, e: PlannedEdge)
    requires || e in FlatMap(s.schema.columns, ColumnEdges) || e in FlatMap(s.schema.constraints, ConstraintEdges)
             || e in FlatMap(s.schema.indexes, IndexEdges) || e in FlatMap(s.schema.views, ViewEdges)
             || e in FlatMap(s.schema.triggers, TriggerEdges) || e in FlatMap(s.schema.routines, RoutineEdges)
    ensures e in EdgesInOrder(s)
  {
    assert e in TypedEdges(s.schema);
  }

  /** Ownership edges: one from each column, constraint and index. */
  lemma ColumnEdgePlanned(s: CanonicalSchemaSnapshot, c: ColumnObject)
    requires c in s.schema.columns
    ensures Plain(HasColumn, c.tableKey, c.key) in EdgesInOrder(s)
  {
    FlatMapInto(s.schema.columns, ColumnEdges, c, Plain(HasColumn, c.tableKey, c.key));
    TypedPlanned(s, Plain(HasColumn, c.tableKey, c.key));
  }

  lemma ColumnEdgeFrom(s: CanonicalSchemaSnapshot, e: PlannedEdge) returns (c: ColumnObject)
    requires CanonicalWellFormed(s) && e in EdgesInOrder(s) && e.kind == HasColumn
    ensures c in s.schema.columns && e == Plain(HasColumn, c.tableKey, c.key)
  {
    hide CanonicalWellFormed;
    PieceOf(s, e);
    c := FlatMapFrom(s.schema.columns, ColumnEdges, e);
  }

  lemma ConstraintEdgePlanned(s: CanonicalSchemaSnapshot, c: ConstraintObject)
    requires c in s.schema.constraints
    ensures Plain(HasConstraint, c.tableKey, c.key) in EdgesInOrder(s)
  {
    FlatMapInto(s.schema.constraints, ConstraintEdges, c, Plain(HasConstraint, c.tableKey, c.key));
    TypedPlanned(s, Plain(HasConstraint, c.tableKey, c.key));
  }

  lemma ConstraintEdgeFrom(s: CanonicalSchemaSnapshot, e: PlannedEdge) returns (c: ConstraintObject)
    requires CanonicalWellFormed(s) && e in EdgesInOrder(s) && e.kind == HasConstraint
    ensures c in s.schema.constraints && e == Plain(HasConstraint, c.tableKey, c.key)
  {
    hide CanonicalWellFormed;
    PieceOf(s, e);
    c := FlatMapFrom(s.schema.constraints, ConstraintEdges, e);
    ConstraintOwnership(s, c, e);
  }

  lemma ConstraintOwnership(s: CanonicalSchemaSnapshot, c: ConstraintObject, e: PlannedEdge)
    requires CanonicalWellFormed(s) && c in s.schema.constraints && e in ConstraintEdges(c) && e.kind == HasConstraint
    ensures e == Plain(HasConstraint, c.tableKey, c.key)
  {
    assert ConstraintOk(KnownKeys(Entries(s.schema)), s.schema.connectionAlias, c);
    ConstraintColumnsDistinct(c);
  }

  lemma IndexEdgePlanned(s: CanonicalSchemaSnapshot, i: IndexObject)
    requires i in s.schema.indexes
    ensures Plain(HasIndex, i.tableKey, i.key) in EdgesInOrder(s)
  {
    FlatMapInto(s.schema.indexes, IndexEdges, i, Plain(HasIndex, i.tableKey, i.key));
    TypedPlanned(s, Plain(HasIndex, i.tableKey, i.key));
  }

  lemma IndexEdgeFrom(s: CanonicalSchemaSnapshot, e: PlannedEdge) returns (i: IndexObject)
    requires CanonicalWellFormed(s) && e in EdgesInOrder(s) && e.kind == HasIndex
    ensures i in s.schema.indexes && e == Plain(HasIndex, i.tableKey, i.key)
  {
    hide CanonicalWellFormed;
    PieceOf(s, e);
    i := FlatMapFrom(s.schema.indexes, IndexEdges, e);
    IndexOwnership(s, i, e);
  }

  lemma IndexOwnership(s: CanonicalSchemaSnapshot, i: IndexObject, e: PlannedEdge)
    requires CanonicalWellFormed(s) && i in s.schema.indexes && e in IndexEdges(i) && e.kind == HasIndex
    ensures e == Plain(HasIndex, i.tableKey, i.key)
  {
    assert IndexOk(KnownKeys(Entries(s.schema)), s.schema.connectionAlias, i);
    SortedKeysDistinct(InIndex, i.columns, i.key);
  }

  /** Edges from foreign keys to the columns they refer to. */
  lemma ReferenceEdgePlanned(s: CanonicalSchemaSnapshot, c: ConstraintObject, column: ObjectKey)
    requires c in s.schema.constraints && c.kind == ForeignKeyRule && column in c.referencedColumns
    ensures Plain(ToColumn, c.key, column) in EdgesInOrder(s)
  {
    var e := Plain(ToColumn, c.key, column);
    var sorted := StableSort(c.referencedColumns, ByKey);
    StableSortElements(c.referencedColumns, ByKey, sorted);
    var i :| 0 <= i < |sorted| && sorted[i] == column;
    assert EdgesOutOf(ToColumn, c.key, c.referencedColumns)[i] == e;
    assert e in ConstraintEdges(c);
    FlatMapInto(s.schema.constraints, ConstraintEdges, c, e);
    TypedPlanned(s, e);
  }

  lemma ReferenceEdgeFrom(s: CanonicalSchemaSnapshot, e: PlannedEdge) returns (c: ConstraintObject)
    requires CanonicalWellFormed(s) && e in EdgesInOrder(s) && e.kind == ToColumn
    ensures c in s.schema.constraints && c.kind == ForeignKeyRule && e.from == c.key && e.to in c.referencedColumns
  {
    hide CanonicalWellFormed;
    PieceOf(s, e);
    c := FlatMapFrom(s.schema.constraints, ConstraintEdges, e);
    ReferenceOf(s, c, e);
  }

  lemma ConstraintChecked(s: CanonicalSchemaSnapshot, c: ConstraintObject)
    requires CanonicalWellFormed(s) && c in s.schema.constraints
    ensures ConstraintOk(KnownKeys(Entries(s.schema)), s.schema.connectionAlias, c)
  {
  }

  lemma ReferenceOf(s: CanonicalSchemaSnapshot, c: ConstraintObject, e: PlannedEdge)
    requires CanonicalWellFormed(s) && c in s.schema.constraints && e in ConstraintEdges(c) && e.kind == ToColumn
    ensures c.kind == ForeignKeyRule && e.from == c.key && e.to in c.referencedColumns
  {
    hide CanonicalWellFormed, KnownKeys, Entries;
    ConstraintChecked(s, c);
    match c.kind
    case PrimaryKeyRule => SortedKeysDistinct(InPrimaryKey, c.columns, c.key);
    case UniqueRule => SortedKeysDistinct(InUnique, c.columns, c.key);
    case CheckRule => SortedKeysDistinct(InCheck, c.columns, c.key);
    case ForeignKeyRule =>
      SortedKeysDistinct(FromColumn, c.columns, c.key);
      StableSortElements(c.referencedColumns, ByKey, StableSort(c.referencedColumns, ByKey));
  }

  // ---------------------------------------------------------------- dependents

  /** The kind of object a dependency edge leads to. */
  function TargetKind(kind: EdgeKind): ObjectKind {
    if kind == ViewOnTable || kind == RoutineOnTable then Table else Column
  }

  function DependencyKind(view: bool, d: ObjectKey): EdgeKind {
    if view then (if d.objectKind == Table then ViewOnTable else ViewOnColumn)
    else if d.objectKind == Table then RoutineOnTable else RoutineOnColumn
  }

  lemma ViewEdgePlanned(s: CanonicalSchemaSnapshot, v: ViewObject, d: ObjectKey)
    requires v in s.schema.views && d in v.dependsOn && d.objectKind in {Table, Column}
    ensures Plain(DependencyKind(true, d), v.key, d) in EdgesInOrder(s)
  {
    var e, f, sorted := Plain(DependencyKind(true, d), v.key, d), k => ViewDependencyEdges(v.key, k),
        StableSort(v.dependsOn, ByKey);
    StableSortElements(v.dependsOn, ByKey, sorted);
    FlatMapInto(sorted, f, d, e);
    assert e in ViewEdges(v);
    FlatMapInto(s.schema.views, ViewEdges, v, e);
    TypedPlanned(s, e);
  }

  lemma ViewEdgeFrom(s: CanonicalSchemaSnapshot, e: PlannedEdge) returns (v: ViewObject)
    requires CanonicalWellFormed(s) && e in EdgesInOrder(s) && (e.kind == ViewOnTable || e.kind == ViewOnColumn)
    ensures v in s.schema.views && e.from == v.key && e.to in v.dependsOn && e.to.objectKind == TargetKind(e.kind)
  {
    hide CanonicalWellFormed;
    ViewPiece(s, e);
    v := ViewOfEdge(s.schema.views, e);
  }

  lemma ViewOfEdge(views: seq<ViewObject>, e: PlannedEdge) returns (v: ViewObject)
    requires e in FlatMap(views, ViewEdges) && (e.kind == ViewOnTable || e.kind == ViewOnColumn)
    ensures v in views && e.from == v.key && e.to in v.dependsOn && e.to.objectKind == TargetKind(e.kind)
  {
    v := FlatMapFrom(views, ViewEdges, e);
    ViewEdgeParts(v, e);
  }

  lemma ViewEdgeParts(v: ViewObject, e: PlannedEdge)
    requires e in ViewEdges(v) && (e.kind == ViewOnTable || e.kind == ViewOnColumn)
    ensures e.from == v.key && e.to in v.dependsOn && e.to.objectKind == TargetKind(e.kind)
  {
    hide StableSort, FlatMap;
    var f, sorted := k => ViewDependencyEdges(v.key, k), StableSort(v.dependsOn, ByKey);
    assert e in FlatMap(sorted, f);
    var d := FlatMapFrom(sorted, f, e);
    StableSortElements(v.dependsOn, ByKey, sorted);
  }

  lemma RoutineEdgePlanned(s: CanonicalSchemaSnapshot, r: RoutineObject, d: ObjectKey)
    requires r in s.schema.routines && d in r.dependsOn && d.objectKind in {Table, Column}
    ensures Plain(DependencyKind(false, d), r.key, d) in EdgesInOrder(s)
  {
    var e, f, sorted := Plain(DependencyKind(false, d), r.key, d), k => RoutineDependencyEdges(r.key, k),
        StableSort(r.dependsOn, ByKey);
    StableSortElements(r.dependsOn, ByKey, sorted);
    FlatMapInto(sorted, f, d, e);
    assert e in RoutineEdges(r);
    FlatMapInto(s.schema.routines, RoutineEdges, r, e);
    TypedPlanned(s, e);
  }

  lemma RoutineEdgeFrom(s: CanonicalSchemaSnapshot, e: PlannedEdge) returns (r: RoutineObject)
    requires CanonicalWellFormed(s) && e in EdgesInOrder(s) && (e.kind == RoutineOnTable || e.kind == RoutineOnColumn)
    ensures r in s.schema.routines && e.from == r.key && e.to in r.dependsOn && e.to.objectKind == TargetKind(e.kind)
  {
    hide CanonicalWellFormed;
    assert Stage(e.kind) == 7;
    RoutinePiece(s, e);
    r := RoutineOfEdge(s.schema.routines, e);
  }

  lemma RoutineOfEdge(routines: seq<RoutineObject>, e: PlannedEdge) returns (r: RoutineObject)
    requires e in FlatMap(routines, RoutineEdges) && (e.kind == RoutineOnTable || e.kind == RoutineOnColumn)
    ensures r in routines && e.from == r.key && e.to in r.dependsOn && e.to.objectKind == TargetKind(e.kind)
  {
    r := FlatMapFrom(routines, RoutineEdges, e);
    RoutineEdgeParts(r, e);
  }

  lemma RoutineEdgeParts(r: RoutineObject, e: PlannedEdge)
    requires e in RoutineEdges(r) && (e.kind == RoutineOnTable || e.kind == RoutineOnColumn)
    ensures e.from == r.key && e.to in r.dependsOn && e.to.objectKind == TargetKind(e.kind)
  {
    var f, sorted := k => RoutineDependencyEdges(r.key, k), StableSort(r.dependsOn, ByKey);
    assert e in FlatMap(sorted, f);
    var d := FlatMapFrom(sorted, f, e);
    StableSortElements(r.dependsOn, ByKey, sorted);
  }

  lemma TriggerEdgePlanned(s: CanonicalSchemaSnapshot, t: TriggerObject)
    requires CanonicalWellFormed(s) && t in s.schema.triggers && t.tableKey.objectKind == Table
    ensures Plain(TableHasTrigger, t.tableKey, t.key) in EdgesInOrder(s)
  {
    hide CanonicalWellFormed;
    var e := Plain(TableHasTrigger, t.tableKey, t.key);
    assert e in TriggerEdges(t);
    FlatMapInto(s.schema.triggers, TriggerEdges, t, e);
    TypedPlanned(s, e);
  }

  lemma TriggerEdgeFrom(s: CanonicalSchemaSnapshot, e: PlannedEdge) returns (t: TriggerObject)
    requires CanonicalWellFormed(s) && e in EdgesInOrder(s) && e.kind == TableHasTrigger
    ensures t in s.schema.triggers && t.tableKey.objectKind == Table && e == Plain(TableHasTrigger, t.tableKey, t.key)
  {
    hide CanonicalWellFormed, EdgesInOrder;
    TriggerPiece(s, e);
    t := TriggerOfEdge(s.schema.triggers, e);
    TriggerOwner(s, t);
  }

  lemma TriggerOfEdge(triggers: seq<TriggerObject>, e: PlannedEdge) returns (t: TriggerObject)
    requires e in FlatMap(triggers, TriggerEdges) && e.kind == TableHasTrigger
    ensures t in triggers && t.tableKey.objectKind != View && e == Plain(TableHasTrigger, t.tableKey, t.key)
  {
    t := FlatMapFrom(triggers, TriggerEdges, e);
  }

  lemma TriggerOwner(s: CanonicalSchemaSnapshot, t: TriggerObject)
    requires CanonicalWellFormed(s) && t in s.schema.triggers
    ensures t.tableKey.objectKind in {Table, View}
  {
    assert TriggerOk(KnownKeys(Entries(s.schema)), s.schema.connectionAlias, t);
  }

  // --------------------------------------------------- a column has one table

  /** A known key of a fixed kind is that of an object of its collection. */
  lemma KnownTable(s: SchemaSnapshot, key: ObjectKey) returns (t: TableObject)
    requires WellFormed(s) && key in KnownKeys(Entries(s)) && key.objectKind == Table
    ensures t in s.tables && t.key == key
  {
    var e :| e in Entries(s) && e.key == key;
    assert e.kind == Table;
    TableEntry(s, e);
    var i :| 0 <= i < |s.tables| && TableEntries(s.tables)[i] == e;
    t := s.tables[i];
  }

  lemma TableEntry(s: SchemaSnapshot, e: Entry)
    requires e in Entries(s) && e.kind == Table
    ensures e in TableEntries(s.tables)
  {
    assert forall i :: 0 <= i < |s.constraints| ==> ConstraintEntries(s.constraints)[i].kind != Table;
  }

  lemma KnownColumn(s: SchemaSnapshot, key: ObjectKey) returns (c: ColumnObject)
    requires WellFormed(s) && key in KnownKeys(Entries(s)) && key.objectKind == Column
    ensures c in s.columns && c.key == key
  {
    var e :| e in Entries(s) && e.key == key;
    assert e.kind == Column;
    ColumnEntry(s, e);
    var i :| 0 <= i < |s.columns| && ColumnEntries(s.columns)[i] == e;
    c := s.columns[i];
  }

  lemma ColumnEntry(s: SchemaSnapshot, e: Entry)
    requires e in Entries(s) && e.kind == Column
    ensures e in ColumnEntries(s.columns)
  {
    assert forall i :: 0 <= i < |s.constraints| ==> ConstraintEntries(s.constraints)[i].kind != Column;
  }

  /** Table keys of one snapshot are told apart by schema and name. */
  lemma TablesByName(s: SchemaSnapshot, a: ObjectKey, b: ObjectKey)
    requires WellFormed(s) && a in KnownKeys(Entries(s)) && b in KnownKeys(Entries(s))
             && a.objectKind == b.objectKind == Table
    requires a.schema == b.schema && a.objectName == b.objectName
    ensures a == b
  {
    var t := KnownTable(s, a);
    var u := KnownTable(s, b);
    var known := KnownKeys(Entries(s));
    assert TableOk(known, s.connectionAlias, t) && TableOk(known, s.connectionAlias, u);
    var e :| e in Entries(s) && e.key == a;
    var f :| f in Entries(s) && f.key == b;
    assert InScope(e.key, s.connectionAlias, s.database.key) && InScope(f.key, s.connectionAlias, s.database.key);
  }

  lemma ColumnOwner(s: SchemaSnapshot, c: ColumnObject)
    requires WellFormed(s) && c in s.columns
    ensures c.tableKey in KnownKeys(Entries(s)) && c.tableKey.objectKind == Table
    ensures c.key.schema == c.tableKey.schema && c.key.objectName == c.tableKey.objectName && c.key.objectKind == Column
  {
    assert ColumnOk(KnownKeys(Entries(s)), s.connectionAlias, c);
    var i :| 0 <= i < |s.columns| && s.columns[i] == c;
    PieceMember(s, ColumnEntries(s.columns)[i]);
    assert ColumnEntries(s.columns)[i] in Entries(s);
  }

  /** The column a foreign key refers to belongs to the table it refers to. */
  lemma ReferencedColumnOf(s: SchemaSnapshot, k: ConstraintObject, c: ColumnObject)
    requires WellFormed(s) && k in s.constraints && k.kind == ForeignKeyRule && c in s.columns
             && c.key in k.referencedColumns
    ensures k.referencedTableKey == Some(c.tableKey)
  {
    var known := KnownKeys(Entries(s));
    assert ConstraintOk(known, s.connectionAlias, k);
    assert ColumnOf(known, c.key, k.referencedTableKey.value);
    ColumnOwner(s, c);
    TablesByName(s, k.referencedTableKey.value, c.tableKey);
  }

  /** Every foreign key refers to a column of the table it names. */
  lemma SomeReferencedColumn(s: SchemaSnapshot, k: ConstraintObject) returns (c: ColumnObject)
    requires WellFormed(s) && k in s.constraints && k.kind == ForeignKeyRule
    ensures c in s.columns && c.key in k.referencedColumns && k.referencedTableKey == Some(c.tableKey)
  {
    var known := KnownKeys(Entries(s));
    assert ConstraintOk(known, s.connectionAlias, k);
    var key := k.referencedColumns[0];
    assert ColumnOf(known, key, k.referencedTableKey.value);
    c := KnownColumn(s, key);
    ReferencedColumnOf(s, k, c);
  }
}
