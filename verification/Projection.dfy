/** What the graph builder writes for a snapshot: nodes and edges in the order of the inserting code,
    and how many there are (graph_builder.rs). */
module Projection {
  import opened Wrappers
  import opened Lists
  import opened Ordering
  import opened ObjectKeys
  import opened SchemaModel
  import opened SnapshotRules
  import opened CanonicalRules
  import opened Canonical
  import opened Certification
  import opened GraphModel

  // -------------------------------------------------------------------- nodes

  datatype PlannedNode = PlannedNode(key: ObjectKey, nodeLabel: string, name: string, content: GraphObject)

  function ConstraintLabel(kind: ConstraintKind): string {
    match kind
    case PrimaryKeyRule => "PrimaryKey"
    case ForeignKeyRule => "ForeignKey"
    case UniqueRule => "UniqueConstraint"
    case CheckRule => "CheckConstraint"
  }

  function MetadataLabel(kind: ObjectKind): string {
    match kind
    case MaterializedView => "MaterializedView"
    case ViewColumn => "ViewColumn"
    case Sequence => "Sequence"
    case RoutineParameter => "RoutineParameter"
    case UserDefinedType => "UserDefinedType"
    case Domain => "Domain"
    case EnumValue => "EnumValue"
    case Synonym => "Synonym"
    case ExclusionConstraint => "ExclusionConstraint"
    case Event => "Event"
    case Package => "Package"
    case Principal => "Principal"
    case Policy => "Policy"
    case Extension => "Extension"
    case _ => "MetadataObject"
  }

  function DatabaseNode(o: DatabaseObject): PlannedNode { PlannedNode(o.key, "Database", o.name, OfDatabase(o)) }
  function SchemaNode(o: SchemaObject): PlannedNode { PlannedNode(o.key, "Schema", o.name, OfSchema(o)) }
  function TableNode(o: TableObject): PlannedNode { PlannedNode(o.key, "Table", o.name, OfTable(o)) }
  function ColumnNode(o: ColumnObject): PlannedNode { PlannedNode(o.key, "Column", o.name, OfColumn(o)) }
  function ConstraintNode(o: ConstraintObject): PlannedNode {
    PlannedNode(o.key, ConstraintLabel(o.kind), o.name, OfConstraint(o))
  }
  function IndexNode(o: IndexObject): PlannedNode { PlannedNode(o.key, "Index", o.name, OfIndex(o)) }
  function ViewNode(o: ViewObject): PlannedNode { PlannedNode(o.key, "View", o.name, OfView(o)) }
  function TriggerNode(o: TriggerObject): PlannedNode { PlannedNode(o.key, "Trigger", o.name, OfTrigger(o)) }
  function RoutineNode(o: RoutineObject): PlannedNode { PlannedNode(o.key, "Routine", o.name, OfRoutine(o)) }
  function MetadataNode(o: MetadataObject): PlannedNode {
    PlannedNode(o.key, MetadataLabel(o.key.objectKind), o.name, OfMetadata(o))
  }

  /** The nodes of a snapshot, collection by collection. */
  function NodesInOrder(x: CanonicalSchemaSnapshot): seq<PlannedNode> {
    [DatabaseNode(x.schema.database)]
    + MapSeq(SchemaNode, x.schema.schemas) + MapSeq(TableNode, x.schema.tables) + MapSeq(ColumnNode, x.schema.columns)
    + MapSeq(ConstraintNode, x.schema.constraints) + MapSeq(IndexNode, x.schema.indexes)
    + MapSeq(ViewNode, x.schema.views)
    + MapSeq(TriggerNode, x.schema.triggers) + MapSeq(RoutineNode, x.schema.routines)
    + MapSeq(MetadataNode, x.metadata.objects)
  }

  // -------------------------------------------------------------------- edges

  /** What an edge says; its name is the edge type of the stored row. */
  datatype EdgeKind =
    | HasSchema | HasTable | HasColumn | HasConstraint | InPrimaryKey | FromColumn | ToColumn | InUnique | InCheck
    | HasIndex | InIndex | HasView | ViewOnTable | ViewOnColumn | ViewOnView
    | TableHasTrigger | TriggerOnTable | ViewHasTrigger | TriggerOnView | Executes
    | HasRoutine | RoutineOnTable | RoutineOnColumn | ParentOf | Related(relation: MetadataRelationshipKind)

  function EdgeType(kind: EdgeKind): string {
    match kind
    case HasSchema => "DATABASE_HAS_SCHEMA"
    case HasTable => "SCHEMA_HAS_TABLE"
    case HasColumn => "TABLE_HAS_COLUMN"
    case HasConstraint => "TABLE_HAS_CONSTRAINT"
    case InPrimaryKey => "COLUMN_IN_PRIMARY_KEY"
    case FromColumn => "FK_FROM_COLUMN"
    case ToColumn => "FK_TO_COLUMN"
    case InUnique => "COLUMN_IN_UNIQUE"
    case InCheck => "COLUMN_IN_CHECK"
    case HasIndex => "TABLE_HAS_INDEX"
    case InIndex => "COLUMN_IN_INDEX"
    case HasView => "SCHEMA_HAS_VIEW"
    case ViewOnTable => "VIEW_DEPENDS_ON_TABLE"
    case ViewOnColumn => "VIEW_DEPENDS_ON_COLUMN"
    case ViewOnView => "VIEW_DEPENDS_ON_VIEW"
    case TableHasTrigger => "TABLE_HAS_TRIGGER"
    case TriggerOnTable => "TRIGGER_ON_TABLE"
    case ViewHasTrigger => "VIEW_HAS_TRIGGER"
    case TriggerOnView => "TRIGGER_ON_VIEW"
    case Executes => "TRIGGER_EXECUTES_ROUTINE"
    case HasRoutine => "SCHEMA_HAS_ROUTINE"
    case RoutineOnTable => "ROUTINE_DEPENDS_ON_TABLE"
    case RoutineOnColumn => "ROUTINE_DEPENDS_ON_COLUMN"
    case ParentOf => "METADATA_PARENT"
    case Related(relation) => GraphEdgeType(relation)
  }

  datatype PlannedEdge = PlannedEdge(kind: EdgeKind, from: ObjectKey, to: ObjectKey,
                                     relationship: Option<MetadataRelationship>)

  function Plain(kind: EdgeKind, from: ObjectKey, to: ObjectKey): PlannedEdge { PlannedEdge(kind, from, to, None) }

  /** One edge from each key of a list, in key order. */
  function EdgesInto(kind: EdgeKind, keys: seq<ObjectKey>, to: ObjectKey): seq<PlannedEdge> {
    MapSeq((k: ObjectKey) => Plain(kind, k, to), StableSort(keys, ByKey))
  }

  function EdgesOutOf(kind: EdgeKind, from: ObjectKey, keys: seq<ObjectKey>): seq<PlannedEdge> {
    MapSeq((k: ObjectKey) => Plain(kind, from, k), StableSort(keys, ByKey))
  }

  function SchemaEdges(o: SchemaObject): seq<PlannedEdge> { [Plain(HasSchema, o.databaseKey, o.key)] }
  function TableEdges(o: TableObject): seq<PlannedEdge> { [Plain(HasTable, o.schemaKey, o.key)] }
  function ColumnEdges(o: ColumnObject): seq<PlannedEdge> { [Plain(HasColumn, o.tableKey, o.key)] }

  function ConstraintColumnEdges(c: ConstraintObject): seq<PlannedEdge> {
    match c.kind
    case PrimaryKeyRule => EdgesInto(InPrimaryKey, c.columns, c.key)
    case ForeignKeyRule => EdgesInto(FromColumn, c.columns, c.key) + EdgesOutOf(ToColumn, c.key, c.referencedColumns)
    case UniqueRule => EdgesInto(InUnique, c.columns, c.key)
    case CheckRule => EdgesInto(InCheck, c.columns, c.key)
  }

  function ConstraintEdges(c: ConstraintObject): seq<PlannedEdge> {
    [Plain(HasConstraint, c.tableKey, c.key)] + ConstraintColumnEdges(c)
  }

  function IndexEdges(i: IndexObject): seq<PlannedEdge> {
    [Plain(HasIndex, i.tableKey, i.key)] + EdgesInto(InIndex, i.columns, i.key)
  }

  /** A view's dependency becomes an edge only when it is a table, a column or a view. */
  function ViewDependencyEdges(view: ObjectKey, d: ObjectKey): seq<PlannedEdge> {
    match d.objectKind
    case Table => [Plain(ViewOnTable, view, d)]
    case Column => [Plain(ViewOnColumn, view, d)]
    case View => [Plain(ViewOnView, view, d)]
    case _ => []
  }

  function ViewEdges(v: ViewObject): seq<PlannedEdge> {
    [Plain(HasView, v.schemaKey, v.key)] + FlatMap(StableSort(v.dependsOn, ByKey), d => ViewDependencyEdges(v.key, d))
  }

  function TriggerEdges(t: TriggerObject): seq<PlannedEdge> {
    (if t.tableKey.objectKind == View
     then [Plain(ViewHasTrigger, t.tableKey, t.key), Plain(TriggerOnView, t.key, t.tableKey)]
     else [Plain(TableHasTrigger, t.tableKey, t.key), Plain(TriggerOnTable, t.key, t.tableKey)])
    + (match t.executesRoutineKey case Some(routine) => [Plain(Executes, t.key, routine)] case None => [])
  }

  /** A routine's dependency becomes an edge only when it is a table or a column. */
  function RoutineDependencyEdges(routine: ObjectKey, d: ObjectKey): seq<PlannedEdge> {
    match d.objectKind
    case Table => [Plain(RoutineOnTable, routine, d)]
    case Column => [Plain(RoutineOnColumn, routine, d)]
    case _ => []
  }

  function RoutineEdges(r: RoutineObject): seq<PlannedEdge> {
    [Plain(HasRoutine, r.schemaKey, r.key)]
        + FlatMap(StableSort(r.dependsOn, ByKey), d => RoutineDependencyEdges(r.key, d))
  }

  function ParentEdges(o: MetadataObject): seq<PlannedEdge> {
    match o.parentKey case Some(parent) => [Plain(ParentOf, parent, o.key)] case None => []
  }

  function GraphEdgeType(kind: MetadataRelationshipKind): string {
    match kind
    case DependsOn => "DEPENDS_ON"
    case UsesType => "USES_TYPE"
    case UsesSequence => "USES_SEQUENCE"
    case PartitionOf => "PARTITION_OF"
    case InheritsFrom => "INHERITS_FROM"
    case SynonymFor => "SYNONYM_FOR"
    case HasParameter => "HAS_PARAMETER"
    case ReturnsType => "RETURNS_TYPE"
    case OwnedBy => "OWNED_BY"
    case Materializes => "MATERIALIZES"
    case Invokes => "INVOKES"
    case IncludesColumn => "INCLUDES_COLUMN"
    case ExcludesWith => "EXCLUDES_WITH"
    case ExtensionRelation(name) => "EXTENSION:" + name
  }

  function RelationshipEdge(r: MetadataRelationship): PlannedEdge {
    PlannedEdge(Related(r.kind), r.fromKey, r.toKey, Some(r))
  }

  /** The edges of a snapshot, in the order they are inserted. */
  function TypedEdges(s: SchemaSnapshot): seq<PlannedEdge> {
    FlatMap(s.schemas, SchemaEdges) + FlatMap(s.tables, TableEdges) + FlatMap(s.columns, ColumnEdges)
    + FlatMap(s.constraints, ConstraintEdges) + FlatMap(s.indexes, IndexEdges) + FlatMap(s.views, ViewEdges)
    + FlatMap(s.triggers, TriggerEdges) + FlatMap(s.routines, RoutineEdges)
  }

  function MetadataEdges(m: CanonicalMetadata): seq<PlannedEdge> {
    FlatMap(m.objects, ParentEdges) + MapSeq(RelationshipEdge, m.relationships)
  }

  function EdgesInOrder(x: CanonicalSchemaSnapshot): seq<PlannedEdge> {
    TypedEdges(x.schema) + MetadataEdges(x.metadata)
  }

  // -------------------------------------------------------------------- order

  /** The builder sorts relationships by edge type, printed endpoints and ordinal. */
  function BuildOrder(r: MetadataRelationship): SortKey {
    SortKey(0, [GraphEdgeType(r.kind), Print(r.fromKey), Print(r.toKey)], OrdinalRank(r.ordinal))
  }

  /** The snapshot with every collection as `sorted_by_key` lists it. */
  function InKeyOrder(s: CanonicalSchemaSnapshot): CanonicalSchemaSnapshot {
    CanonicalSchemaSnapshot(
      s.schema.(schemas := StableSort(s.schema.schemas, SchemaOrder),
                tables := StableSort(s.schema.tables, TableOrder),
                columns := StableSort(s.schema.columns, ColumnOrder),
                constraints := StableSort(s.schema.constraints, ConstraintOrder),
                indexes := StableSort(s.schema.indexes, IndexOrder),
                views := StableSort(s.schema.views, ViewOrder),
                triggers := StableSort(s.schema.triggers, TriggerOrder),
                routines := StableSort(s.schema.routines, RoutineOrder)),
      CanonicalMetadata(StableSort(s.metadata.objects, MetadataOrder), s.metadata.annotations,
                        StableSort(s.metadata.relationships, BuildOrder)))
  }

  lemma InKeyOrderReorders(s: CanonicalSchemaSnapshot)
    ensures CanonicalReordered(InKeyOrder(s), s)
  {
    StableSortKeeps(s.schema.schemas, SchemaOrder);
    StableSortKeeps(s.schema.tables, TableOrder);
    StableSortKeeps(s.schema.columns, ColumnOrder);
    StableSortKeeps(s.schema.constraints, ConstraintOrder);
    StableSortKeeps(s.schema.indexes, IndexOrder);
    StableSortKeeps(s.schema.views, ViewOrder);
    StableSortKeeps(s.schema.triggers, TriggerOrder);
    StableSortKeeps(s.schema.routines, RoutineOrder);
    StableSortKeeps(s.metadata.objects, MetadataOrder);
    StableSortKeeps(s.metadata.relationships, BuildOrder);
  }

  function NodePlan(s: CanonicalSchemaSnapshot): seq<PlannedNode> { NodesInOrder(InKeyOrder(s)) }

  function EdgePlan(s: CanonicalSchemaSnapshot): seq<PlannedEdge> { EdgesInOrder(InKeyOrder(s)) }

  // ---------------------------------------------------- one node per object

  function KeyOfNode(n: PlannedNode): ObjectKey { n.key }

  function KeyOfEntry(e: Entry): ObjectKey { e.key }

  lemma MapSeqJoined<A, B>(f: A -> B, a: seq<A>, b: seq<A>)
    ensures MapSeq(f, a + b) == MapSeq(f, a) + MapSeq(f, b)
  {
  }

  lemma FiveJoined<A, B>(f: A -> B, a: seq<A>, b: seq<A>, c: seq<A>, d: seq<A>, e: seq<A>)
    ensures MapSeq(f, a + b + c + d + e) == MapSeq(f, a) + MapSeq(f, b) + MapSeq(f, c) + MapSeq(f, d) + MapSeq(f, e)
  {
    MapSeqJoined(f, a, b);
    MapSeqJoined(f, a + b, c);
    MapSeqJoined(f, a + b + c, d);
    MapSeqJoined(f, a + b + c + d, e);
  }

  lemma TenJoined<A, B>(f: A -> B, a: seq<A>, b: seq<A>, c: seq<A>, d: seq<A>, e: seq<A>, g: seq<A>, h: seq<A>,
                        i: seq<A>, j: seq<A>, k: seq<A>)
    ensures MapSeq(f, a + b + c + d + e + g + h + i + j + k)
         == MapSeq(f, a) + MapSeq(f, b) + MapSeq(f, c) + MapSeq(f, d) + MapSeq(f, e)
            + MapSeq(f, g) + MapSeq(f, h) + MapSeq(f, i) + MapSeq(f, j) + MapSeq(f, k)
  {
    FiveJoined(f, a, b, c, d, e);
    FiveJoined(f, a + b + c + d + e, g, h, i, j);
    MapSeqJoined(f, a + b + c + d + e + g + h + i + j, k);
  }

  lemma SameKeys<A>(f: A -> PlannedNode, items: seq<A>, entries: seq<Entry>)
    requires |entries| == |items| && forall i :: 0 <= i < |items| ==> f(items[i]).key == entries[i].key
    ensures MapSeq(KeyOfNode, MapSeq(f, items)) == MapSeq(KeyOfEntry, entries)
  {
    var nodes := MapSeq(f, items);
    forall i | 0 <= i < |items| ensures KeyOfNode(nodes[i]) == KeyOfEntry(entries[i]) {
      assert nodes[i] == f(items[i]);
    }
  }

  lemma PieceKeys(x: CanonicalSchemaSnapshot)
    ensures MapSeq(KeyOfNode, MapSeq(SchemaNode, x.schema.schemas))
            == MapSeq(KeyOfEntry, SchemaEntries(x.schema.schemas))
    ensures MapSeq(KeyOfNode, MapSeq(TableNode, x.schema.tables)) == MapSeq(KeyOfEntry, TableEntries(x.schema.tables))
    ensures MapSeq(KeyOfNode, MapSeq(ColumnNode, x.schema.columns))
            == MapSeq(KeyOfEntry, ColumnEntries(x.schema.columns))
    ensures MapSeq(KeyOfNode, MapSeq(ConstraintNode, x.schema.constraints))
            == MapSeq(KeyOfEntry, ConstraintEntries(x.schema.constraints))
    ensures MapSeq(KeyOfNode, MapSeq(IndexNode, x.schema.indexes)) == MapSeq(KeyOfEntry, IndexEntries(x.schema.indexes))
    ensures MapSeq(KeyOfNode, MapSeq(ViewNode, x.schema.views)) == MapSeq(KeyOfEntry, ViewEntries(x.schema.views))
    ensures MapSeq(KeyOfNode, MapSeq(TriggerNode, x.schema.triggers))
            == MapSeq(KeyOfEntry, TriggerEntries(x.schema.triggers))
    ensures MapSeq(KeyOfNode, MapSeq(RoutineNode, x.schema.routines))
            == MapSeq(KeyOfEntry, RoutineEntries(x.schema.routines))
    ensures MapSeq(KeyOfNode, MapSeq(MetadataNode, x.metadata.objects))
            == MapSeq(KeyOfEntry, MetadataEntries(x.metadata.objects))
  {
    SameKeys(SchemaNode, x.schema.schemas, SchemaEntries(x.schema.schemas));
    SameKeys(TableNode, x.schema.tables, TableEntries(x.schema.tables));
    SameKeys(ColumnNode, x.schema.columns, ColumnEntries(x.schema.columns));
    SameKeys(ConstraintNode, x.schema.constraints, ConstraintEntries(x.schema.constraints));
    SameKeys(IndexNode, x.schema.indexes, IndexEntries(x.schema.indexes));
    SameKeys(ViewNode, x.schema.views, ViewEntries(x.schema.views));
    SameKeys(TriggerNode, x.schema.triggers, TriggerEntries(x.schema.triggers));
    SameKeys(RoutineNode, x.schema.routines, RoutineEntries(x.schema.routines));
    SameKeys(MetadataNode, x.metadata.objects, MetadataEntries(x.metadata.objects));
  }

  lemma NodeKeysSplit(x: CanonicalSchemaSnapshot)
    ensures MapSeq(KeyOfNode, NodesInOrder(x))
         == MapSeq(KeyOfNode, [DatabaseNode(x.schema.database)])
             + MapSeq(KeyOfNode, MapSeq(SchemaNode, x.schema.schemas))
            + MapSeq(KeyOfNode, MapSeq(TableNode, x.schema.tables))
            + MapSeq(KeyOfNode, MapSeq(ColumnNode, x.schema.columns))
            + MapSeq(KeyOfNode, MapSeq(ConstraintNode, x.schema.constraints))
            + MapSeq(KeyOfNode, MapSeq(IndexNode, x.schema.indexes))
            + MapSeq(KeyOfNode, MapSeq(ViewNode, x.schema.views))
            + MapSeq(KeyOfNode, MapSeq(TriggerNode, x.schema.triggers))
            + MapSeq(KeyOfNode, MapSeq(RoutineNode, x.schema.routines))
            + MapSeq(KeyOfNode, MapSeq(MetadataNode, x.metadata.objects))
  {
    TenJoined(KeyOfNode, [DatabaseNode(x.schema.database)], MapSeq(SchemaNode, x.schema.schemas),
              MapSeq(TableNode, x.schema.tables),
              MapSeq(ColumnNode, x.schema.columns), MapSeq(ConstraintNode, x.schema.constraints),
              MapSeq(IndexNode, x.schema.indexes),
              MapSeq(ViewNode, x.schema.views), MapSeq(TriggerNode, x.schema.triggers),
              MapSeq(RoutineNode, x.schema.routines),
              MapSeq(MetadataNode, x.metadata.objects));
  }

  lemma EntryKeysSplit(x: CanonicalSchemaSnapshot)
    ensures MapSeq(KeyOfEntry, AllEntries(x))
         == MapSeq(KeyOfEntry, [Entry(x.schema.database.key, Database)])
             + MapSeq(KeyOfEntry, SchemaEntries(x.schema.schemas))
            + MapSeq(KeyOfEntry, TableEntries(x.schema.tables)) + MapSeq(KeyOfEntry, ColumnEntries(x.schema.columns))
            + MapSeq(KeyOfEntry, ConstraintEntries(x.schema.constraints))
            + MapSeq(KeyOfEntry, IndexEntries(x.schema.indexes))
            + MapSeq(KeyOfEntry, ViewEntries(x.schema.views)) + MapSeq(KeyOfEntry, TriggerEntries(x.schema.triggers))
            + MapSeq(KeyOfEntry, RoutineEntries(x.schema.routines))
            + MapSeq(KeyOfEntry, MetadataEntries(x.metadata.objects))
  {
    TenJoined(KeyOfEntry, [Entry(x.schema.database.key, Database)], SchemaEntries(x.schema.schemas),
              TableEntries(x.schema.tables),
              ColumnEntries(x.schema.columns), ConstraintEntries(x.schema.constraints), IndexEntries(x.schema.indexes),
              ViewEntries(x.schema.views), TriggerEntries(x.schema.triggers), RoutineEntries(x.schema.routines),
              MetadataEntries(x.metadata.objects));
  }

  lemma KeysInOrder(x: CanonicalSchemaSnapshot)
    ensures MapSeq(KeyOfNode, NodesInOrder(x)) == KeysOf(AllEntries(x))
  {
    NodeKeysSplit(x);
    EntryKeysSplit(x);
    PieceKeys(x);
    assert MapSeq(KeyOfNode, [DatabaseNode(x.schema.database)])
           == MapSeq(KeyOfEntry, [Entry(x.schema.database.key, Database)]);
    assert MapSeq(KeyOfEntry, AllEntries(x)) == KeysOf(AllEntries(x));
  }

  /** The builder writes one node for each object: the keys are the snapshot's, in some order. */
  lemma NodePlanKeys(s: CanonicalSchemaSnapshot)
    ensures multiset(MapSeq(KeyOfNode, NodePlan(s))) == multiset(KeysOf(AllEntries(s)))
    ensures |NodePlan(s)| == |AllEntries(s)|
  {
    InKeyOrderReorders(s);
    AllEntriesReordered(InKeyOrder(s), s);
    KeysInOrder(InKeyOrder(s));
    assert |multiset(KeysOf(AllEntries(s)))| == |KeysOf(AllEntries(s))|;
  }
}
