/** What the edges of a stored graph say: there is an edge of a type between two objects exactly when the
    snapshot relates them that way (graph_builder.rs). */
module StoredRelations {
  import opened Wrappers
  import opened Lists
  import opened Ordering
  import opened ObjectKeys
  import opened SchemaModel
  import opened SnapshotRules
  import opened CanonicalRules
  import opened Canonical
  import opened Certification
  import opened GraphModel
  import opened Projection
  import opened EdgeTexts
  import opened GraphBuilder
  import opened AliasDiff

  // ------------------------------------------------------ what a snapshot says

  /** The second object is listed as part of the first. */
  ghost predicate Owns(s: SchemaSnapshot, edgeType: string, a: ObjectKey, b: ObjectKey) {
    || (edgeType == "DATABASE_HAS_SCHEMA" && exists o :: o in s.schemas && o.databaseKey == a && o.key == b)
    || (edgeType == "SCHEMA_HAS_TABLE" && exists o :: o in s.tables && o.schemaKey == a && o.key == b)
    || (edgeType == "SCHEMA_HAS_VIEW" && exists o :: o in s.views && o.schemaKey == a && o.key == b)
    || (edgeType == "SCHEMA_HAS_ROUTINE" && exists o :: o in s.routines && o.schemaKey == a && o.key == b)
    || (edgeType == "TABLE_HAS_COLUMN" && exists o :: o in s.columns && o.tableKey == a && o.key == b)
    || (edgeType == "TABLE_HAS_CONSTRAINT" && exists o :: o in s.constraints && o.tableKey == a && o.key == b)
    || (edgeType == "TABLE_HAS_INDEX" && exists o :: o in s.indexes && o.tableKey == a && o.key == b)
  }

  /** A constraint or an index of the snapshot lists the column. */
  ghost predicate ListsColumn(s: SchemaSnapshot, edgeType: string, a: ObjectKey, b: ObjectKey) {
    || (edgeType == "COLUMN_IN_PRIMARY_KEY"
        && exists o :: o in s.constraints && o.kind == PrimaryKeyRule && a in o.columns && o.key == b)
    || (edgeType == "COLUMN_IN_UNIQUE"
        && exists o :: o in s.constraints && o.kind == UniqueRule && a in o.columns && o.key == b)
    || (edgeType == "COLUMN_IN_CHECK"
        && exists o :: o in s.constraints && o.kind == CheckRule && a in o.columns && o.key == b)
    || (edgeType == "FK_FROM_COLUMN"
        && exists o :: o in s.constraints && o.kind == ForeignKeyRule && a in o.columns && o.key == b)
    || (edgeType == "FK_TO_COLUMN"
        && exists o :: o in s.constraints && o.kind == ForeignKeyRule && o.key == a && b in o.referencedColumns)
    || (edgeType == "COLUMN_IN_INDEX" && exists o :: o in s.indexes && a in o.columns && o.key == b)
  }

  /** A view or a routine of the snapshot names what it depends on. */
  ghost predicate Depends(s: SchemaSnapshot, edgeType: string, a: ObjectKey, b: ObjectKey) {
    || (((edgeType == "VIEW_DEPENDS_ON_TABLE" && b.objectKind == Table)
         || (edgeType == "VIEW_DEPENDS_ON_COLUMN" && b.objectKind == Column)
         || (edgeType == "VIEW_DEPENDS_ON_VIEW" && b.objectKind == View))
        && exists o :: o in s.views && o.key == a && b in o.dependsOn)
    || (((edgeType == "ROUTINE_DEPENDS_ON_TABLE" && b.objectKind == Table)
         || (edgeType == "ROUTINE_DEPENDS_ON_COLUMN" && b.objectKind == Column))
        && exists o :: o in s.routines && o.key == a && b in o.dependsOn)
  }

  /** A trigger of the snapshot stands on its table or view and runs its routine. */
  ghost predicate Triggers(s: SchemaSnapshot, edgeType: string, a: ObjectKey, b: ObjectKey) {
    || (edgeType == "TABLE_HAS_TRIGGER" && a.objectKind != View
        && exists o :: o in s.triggers && o.tableKey == a && o.key == b)
    || (edgeType == "VIEW_HAS_TRIGGER" && a.objectKind == View
        && exists o :: o in s.triggers && o.tableKey == a && o.key == b)
    || (edgeType == "TRIGGER_ON_TABLE" && b.objectKind != View
        && exists o :: o in s.triggers && o.key == a && o.tableKey == b)
    || (edgeType == "TRIGGER_ON_VIEW" && b.objectKind == View
        && exists o :: o in s.triggers && o.key == a && o.tableKey == b)
    || (edgeType == "TRIGGER_EXECUTES_ROUTINE"
        && exists o :: o in s.triggers && o.key == a && o.executesRoutineKey == Some(b))
  }

  /** A metadata object of the snapshot names its parent. */
  ghost predicate Parents(s: CanonicalSchemaSnapshot, edgeType: string, a: ObjectKey, b: ObjectKey) {
    edgeType == "METADATA_PARENT" && exists o :: o in s.metadata.objects && o.parentKey == Some(a) && o.key == b
  }

  /** The name of the edges of a relationship. */
  ghost predicate Named(kind: MetadataRelationshipKind, edgeType: string) {
    match kind
    case DependsOn => edgeType == "DEPENDS_ON"
    case UsesType => edgeType == "USES_TYPE"
    case UsesSequence => edgeType == "USES_SEQUENCE"
    case PartitionOf => edgeType == "PARTITION_OF"
    case InheritsFrom => edgeType == "INHERITS_FROM"
    case SynonymFor => edgeType == "SYNONYM_FOR"
    case HasParameter => edgeType == "HAS_PARAMETER"
    case ReturnsType => edgeType == "RETURNS_TYPE"
    case OwnedBy => edgeType == "OWNED_BY"
    case Materializes => edgeType == "MATERIALIZES"
    case Invokes => edgeType == "INVOKES"
    case IncludesColumn => edgeType == "INCLUDES_COLUMN"
    case ExcludesWith => edgeType == "EXCLUDES_WITH"
    case ExtensionRelation(name) => edgeType == "EXTENSION:" + name
  }

  /** What typed objects and parents say. */
  ghost predicate Says(s: CanonicalSchemaSnapshot, edgeType: string, a: ObjectKey, b: ObjectKey) {
    || Owns(s.schema, edgeType, a, b) || ListsColumn(s.schema, edgeType, a, b) || Depends(s.schema, edgeType, a, b)
    || Triggers(s.schema, edgeType, a, b) || Parents(s, edgeType, a, b)
  }

  /** What the snapshot says of two objects, its metadata relationships included. */
  ghost predicate Relates(s: CanonicalSchemaSnapshot, edgeType: string, a: ObjectKey, b: ObjectKey) {
    || Says(s, edgeType, a, b)
    || exists r :: r in s.metadata.relationships && Named(r.kind, edgeType) && r.fromKey == a && r.toKey == b
  }

  // ------------------------------------------------------------------ names

  lemma OwnerNames()
    ensures EdgeType(HasSchema) == "DATABASE_HAS_SCHEMA" && EdgeType(HasTable) == "SCHEMA_HAS_TABLE"
    ensures EdgeType(HasView) == "SCHEMA_HAS_VIEW" && EdgeType(HasRoutine) == "SCHEMA_HAS_ROUTINE"
    ensures EdgeType(HasColumn) == "TABLE_HAS_COLUMN" && EdgeType(HasConstraint) == "TABLE_HAS_CONSTRAINT"
    ensures EdgeType(HasIndex) == "TABLE_HAS_INDEX"
  {
  }

  lemma ListNames()
    ensures EdgeType(InPrimaryKey) == "COLUMN_IN_PRIMARY_KEY" && EdgeType(InUnique) == "COLUMN_IN_UNIQUE"
    ensures EdgeType(InCheck) == "COLUMN_IN_CHECK" && EdgeType(InIndex) == "COLUMN_IN_INDEX"
    ensures EdgeType(FromColumn) == "FK_FROM_COLUMN" && EdgeType(ToColumn) == "FK_TO_COLUMN"
  {
  }

  lemma DependencyNames()
    ensures EdgeType(ViewOnTable) == "VIEW_DEPENDS_ON_TABLE" && EdgeType(ViewOnColumn) == "VIEW_DEPENDS_ON_COLUMN"
    ensures EdgeType(ViewOnView) == "VIEW_DEPENDS_ON_VIEW"
    ensures EdgeType(RoutineOnTable) == "ROUTINE_DEPENDS_ON_TABLE"
    ensures EdgeType(RoutineOnColumn) == "ROUTINE_DEPENDS_ON_COLUMN"
  {
  }

  lemma TriggerNames()
    ensures EdgeType(TableHasTrigger) == "TABLE_HAS_TRIGGER" && EdgeType(ViewHasTrigger) == "VIEW_HAS_TRIGGER"
    ensures EdgeType(TriggerOnTable) == "TRIGGER_ON_TABLE" && EdgeType(TriggerOnView) == "TRIGGER_ON_VIEW"
    ensures EdgeType(Executes) == "TRIGGER_EXECUTES_ROUTINE"
  {
  }

  // -------------------------------------------------------- edges say no more

  /** A planned edge says what the snapshot does. */
  ghost predicate Told(s: CanonicalSchemaSnapshot, e: PlannedEdge) {
    match e.relationship
    case None => Says(s, EdgeType(e.kind), e.from, e.to)
    case Some(r) => r in s.metadata.relationships && e == RelationshipEdge(r)
  }

  ghost predicate AllTold(s: CanonicalSchemaSnapshot, edges: seq<PlannedEdge>) { forall e :: e in edges ==> Told(s, e) }

  lemma {:induction false} FlatMapTold<T(!new)>(s: CanonicalSchemaSnapshot, items: seq<T>, f: T -> seq<PlannedEdge>)
    requires forall x :: x in items ==> AllTold(s, f(x))
    ensures AllTold(s, FlatMap(items, f))
  {
    if items != [] { FlatMapTold(s, items[1..], f); }
  }

  lemma OwnersTold(s: CanonicalSchemaSnapshot)
    ensures AllTold(s, FlatMap(s.schema.schemas, SchemaEdges)) && AllTold(s, FlatMap(s.schema.tables, TableEdges))
    ensures AllTold(s, FlatMap(s.schema.columns, ColumnEdges))
  {
    hide ListsColumn, Depends, Triggers, Parents;
    FlatMapTold(s, s.schema.schemas, SchemaEdges);
    FlatMapTold(s, s.schema.tables, TableEdges);
    FlatMapTold(s, s.schema.columns, ColumnEdges);
  }

  /** The edges between a list of keys and an object join just these. */
  lemma SortedEdgesAre(kind: EdgeKind, keys: seq<ObjectKey>, key: ObjectKey)
    ensures forall e :: e in EdgesInto(kind, keys, key) <==> e.from in keys && e == Plain(kind, e.from, key)
    ensures forall e :: e in EdgesOutOf(kind, key, keys) <==> e.to in keys && e == Plain(kind, key, e.to)
  {
    var sorted := StableSort(keys, ByKey);
    StableSortElements(keys, ByKey, sorted);
    var into, out := EdgesInto(kind, keys, key), EdgesOutOf(kind, key, keys);
    forall e ensures e in into <==> e.from in keys && e == Plain(kind, e.from, key) {
      if e.from in keys && e == Plain(kind, e.from, key) {
        var i :| 0 <= i < |sorted| && sorted[i] == e.from;
        assert into[i] == e;
      }
    }
    forall e ensures e in out <==> e.to in keys && e == Plain(kind, key, e.to) {
      if e.to in keys && e == Plain(kind, key, e.to) {
        var i :| 0 <= i < |sorted| && sorted[i] == e.to;
        assert out[i] == e;
      }
    }
  }

  lemma ConstraintTold(s: CanonicalSchemaSnapshot, c: ConstraintObject)
    requires c in s.schema.constraints
    ensures AllTold(s, ConstraintEdges(c))
  {
    hide EdgeType, EdgesInto, EdgesOutOf, Depends, Triggers, Parents;
    OwnerNames();
    ListNames();
    SortedEdgesAre(InPrimaryKey, c.columns, c.key);
    SortedEdgesAre(FromColumn, c.columns, c.key);
    SortedEdgesAre(ToColumn, c.referencedColumns, c.key);
    SortedEdgesAre(InUnique, c.columns, c.key);
    SortedEdgesAre(InCheck, c.columns, c.key);
  }

  lemma IndexTold(s: CanonicalSchemaSnapshot, i: IndexObject)
    requires i in s.schema.indexes
    ensures AllTold(s, IndexEdges(i))
  {
    hide EdgeType, EdgesInto, EdgesOutOf, Depends, Triggers, Parents;
    OwnerNames();
    ListNames();
    SortedEdgesAre(InIndex, i.columns, i.key);
  }

  lemma ViewEdgesAre(v: ViewObject)
    ensures forall e :: e in ViewEdges(v) <==>
              || e == Plain(HasView, v.schemaKey, v.key)
              || (e.to in v.dependsOn && e in ViewDependencyEdges(v.key, e.to))
  {
    var sorted, f := StableSort(v.dependsOn, ByKey), (d: ObjectKey) => ViewDependencyEdges(v.key, d);
    StableSortElements(v.dependsOn, ByKey, sorted);
    assert FlatMap(sorted, d => ViewDependencyEdges(v.key, d)) == FlatMap(sorted, f) by {
      FlatMapAlike(sorted, d => ViewDependencyEdges(v.key, d), f);
    }
    LedTo(sorted, f);
  }

  lemma RoutineEdgesAre(r: RoutineObject)
    ensures forall e :: e in RoutineEdges(r) <==>
              || e == Plain(HasRoutine, r.schemaKey, r.key)
              || (e.to in r.dependsOn && e in RoutineDependencyEdges(r.key, e.to))
  {
    var sorted, f := StableSort(r.dependsOn, ByKey), (d: ObjectKey) => RoutineDependencyEdges(r.key, d);
    StableSortElements(r.dependsOn, ByKey, sorted);
    assert FlatMap(sorted, d => RoutineDependencyEdges(r.key, d)) == FlatMap(sorted, f) by {
      FlatMapAlike(sorted, d => RoutineDependencyEdges(r.key, d), f);
    }
    LedTo(sorted, f);
  }

  lemma {:induction false} FlatMapAlike(keys: seq<ObjectKey>, f: ObjectKey -> seq<PlannedEdge>,
                                        g: ObjectKey -> seq<PlannedEdge>)
    requires forall d :: f(d) == g(d)
    ensures FlatMap(keys, f) == FlatMap(keys, g)
  {
    if keys != [] { FlatMapAlike(keys[1..], f, g); }
  }

  lemma LedTo(keys: seq<ObjectKey>, f: ObjectKey -> seq<PlannedEdge>)
    requires forall d, e :: e in f(d) ==> e.to == d
    ensures forall e :: e in FlatMap(keys, f) <==> e.to in keys && e in f(e.to)
  {
    forall e ensures e in FlatMap(keys, f) <==> e.to in keys && e in f(e.to) {
      if e in FlatMap(keys, f) { var d := FlatMapFrom(keys, f, e); }
      if e.to in keys && e in f(e.to) { FlatMapInto(keys, f, e.to, e); }
    }
  }

  lemma ViewTold(s: CanonicalSchemaSnapshot, v: ViewObject)
    requires v in s.schema.views
    ensures AllTold(s, ViewEdges(v))
  {
    hide EdgeType, ViewEdges, ListsColumn, Triggers, Parents;
    OwnerNames();
    DependencyNames();
    ViewEdgesAre(v);
  }

  lemma RoutineTold(s: CanonicalSchemaSnapshot, r: RoutineObject)
    requires r in s.schema.routines
    ensures AllTold(s, RoutineEdges(r))
  {
    hide EdgeType, RoutineEdges, ListsColumn, Triggers, Parents;
    OwnerNames();
    DependencyNames();
    RoutineEdgesAre(r);
  }

  lemma TriggerTold(s: CanonicalSchemaSnapshot, t: TriggerObject)
    requires t in s.schema.triggers
    ensures AllTold(s, TriggerEdges(t))
  {
    hide EdgeType, Owns, ListsColumn, Depends, Parents;
    TriggerNames();
  }

  lemma TypedTold(s: CanonicalSchemaSnapshot)
    ensures AllTold(s, TypedEdges(s.schema))
  {
    hide Told, ConstraintEdges, IndexEdges, ViewEdges, RoutineEdges, TriggerEdges;
    OwnersTold(s);
    forall c | c in s.schema.constraints ensures AllTold(s, ConstraintEdges(c)) { ConstraintTold(s, c); }
    FlatMapTold(s, s.schema.constraints, ConstraintEdges);
    forall i | i in s.schema.indexes ensures AllTold(s, IndexEdges(i)) { IndexTold(s, i); }
    FlatMapTold(s, s.schema.indexes, IndexEdges);
    forall v | v in s.schema.views ensures AllTold(s, ViewEdges(v)) { ViewTold(s, v); }
    FlatMapTold(s, s.schema.views, ViewEdges);
    forall t | t in s.schema.triggers ensures AllTold(s, TriggerEdges(t)) { TriggerTold(s, t); }
    FlatMapTold(s, s.schema.triggers, TriggerEdges);
    forall r | r in s.schema.routines ensures AllTold(s, RoutineEdges(r)) { RoutineTold(s, r); }
    FlatMapTold(s, s.schema.routines, RoutineEdges);
  }

  lemma MetadataTold(s: CanonicalSchemaSnapshot)
    ensures AllTold(s, MetadataEdges(s.metadata))
  {
    hide Owns, ListsColumn, Depends, Triggers;
    FlatMapTold(s, s.metadata.objects, ParentEdges);
    var related := MapSeq(RelationshipEdge, s.metadata.relationships);
    forall i | 0 <= i < |related| ensures Told(s, related[i]) {
      assert related[i] == RelationshipEdge(s.metadata.relationships[i]);
    }
  }

  // ------------------------------------------------------- edges say all of it

  /** The edges of an object are among the planned ones. */
  lemma ObjectEdges(s: SchemaSnapshot, e: PlannedEdge)
    ensures (exists o :: o in s.schemas && e in SchemaEdges(o)) ==> e in TypedEdges(s)
    ensures (exists o :: o in s.tables && e in TableEdges(o)) ==> e in TypedEdges(s)
    ensures (exists o :: o in s.columns && e in ColumnEdges(o)) ==> e in TypedEdges(s)
    ensures (exists o :: o in s.constraints && e in ConstraintEdges(o)) ==> e in TypedEdges(s)
    ensures (exists o :: o in s.indexes && e in IndexEdges(o)) ==> e in TypedEdges(s)
    ensures (exists o :: o in s.views && e in ViewEdges(o)) ==> e in TypedEdges(s)
    ensures (exists o :: o in s.triggers && e in TriggerEdges(o)) ==> e in TypedEdges(s)
    ensures (exists o :: o in s.routines && e in RoutineEdges(o)) ==> e in TypedEdges(s)
  {
    hide SchemaEdges, TableEdges, ColumnEdges, ConstraintEdges, IndexEdges, ViewEdges, TriggerEdges, RoutineEdges;
    if o :| o in s.schemas && e in SchemaEdges(o) { FlatMapInto(s.schemas, SchemaEdges, o, e); }
    if o :| o in s.tables && e in TableEdges(o) { FlatMapInto(s.tables, TableEdges, o, e); }
    if o :| o in s.columns && e in ColumnEdges(o) { FlatMapInto(s.columns, ColumnEdges, o, e); }
    if o :| o in s.constraints && e in ConstraintEdges(o) { FlatMapInto(s.constraints, ConstraintEdges, o, e); }
    if o :| o in s.indexes && e in IndexEdges(o) { FlatMapInto(s.indexes, IndexEdges, o, e); }
    if o :| o in s.views && e in ViewEdges(o) { FlatMapInto(s.views, ViewEdges, o, e); }
    if o :| o in s.triggers && e in TriggerEdges(o) { FlatMapInto(s.triggers, TriggerEdges, o, e); }
    if o :| o in s.routines && e in RoutineEdges(o) { FlatMapInto(s.routines, RoutineEdges, o, e); }
  }

  lemma OwnsPlanned(s: SchemaSnapshot, edgeType: string, a: ObjectKey, b: ObjectKey) returns (e: PlannedEdge)
    requires Owns(s, edgeType, a, b)
    ensures e in TypedEdges(s) && e == Plain(e.kind, a, b) && EdgeType(e.kind) == edgeType
  {
    hide EdgeType, TypedEdges, EdgesInto, EdgesOutOf, ViewDependencyEdges, RoutineDependencyEdges,
         ConstraintColumnEdges;
    OwnerNames();
    if edgeType == "DATABASE_HAS_SCHEMA" && exists o :: o in s.schemas && o.databaseKey == a && o.key == b {
      e := Plain(HasSchema, a, b);
      var o :| o in s.schemas && o.databaseKey == a && o.key == b;
      assert e in SchemaEdges(o);
    } else if edgeType == "SCHEMA_HAS_TABLE" && exists o :: o in s.tables && o.schemaKey == a && o.key == b {
      e := Plain(HasTable, a, b);
      var o :| o in s.tables && o.schemaKey == a && o.key == b;
      assert e in TableEdges(o);
    } else if edgeType == "SCHEMA_HAS_VIEW" && exists o :: o in s.views && o.schemaKey == a && o.key == b {
      e := Plain(HasView, a, b);
      var o :| o in s.views && o.schemaKey == a && o.key == b;
      assert e in ViewEdges(o);
    } else if edgeType == "SCHEMA_HAS_ROUTINE" && exists o :: o in s.routines && o.schemaKey == a && o.key == b {
      e := Plain(HasRoutine, a, b);
      var o :| o in s.routines && o.schemaKey == a && o.key == b;
      assert e in RoutineEdges(o);
    } else if edgeType == "TABLE_HAS_COLUMN" && exists o :: o in s.columns && o.tableKey == a && o.key == b {
      e := Plain(HasColumn, a, b);
      var o :| o in s.columns && o.tableKey == a && o.key == b;
      assert e in ColumnEdges(o);
    } else if edgeType == "TABLE_HAS_CONSTRAINT" && exists o :: o in s.constraints && o.tableKey == a && o.key == b {
      e := Plain(HasConstraint, a, b);
      var o :| o in s.constraints && o.tableKey == a && o.key == b;
      assert e in ConstraintEdges(o);
    } else {
      e := Plain(HasIndex, a, b);
      var o :| o in s.indexes && o.tableKey == a && o.key == b;
      assert e in IndexEdges(o);
    }
    ObjectEdges(s, e);
  }

  lemma ListsPlanned(s: SchemaSnapshot, edgeType: string, a: ObjectKey, b: ObjectKey) returns (e: PlannedEdge)
    requires ListsColumn(s, edgeType, a, b)
    ensures e in TypedEdges(s) && e == Plain(e.kind, a, b) && EdgeType(e.kind) == edgeType
  {
    hide EdgeType, TypedEdges, EdgesInto, EdgesOutOf;
    ListNames();
    if edgeType == "COLUMN_IN_INDEX" && exists o :: o in s.indexes && a in o.columns && o.key == b {
      e := Plain(InIndex, a, b);
      var o :| o in s.indexes && a in o.columns && o.key == b;
      SortedEdgesAre(InIndex, o.columns, b);
      assert e in IndexEdges(o);
    } else if edgeType == "FK_TO_COLUMN"
        && exists o :: o in s.constraints && o.kind == ForeignKeyRule && o.key == a && b in o.referencedColumns {
      e := Plain(ToColumn, a, b);
      var o :| o in s.constraints && o.kind == ForeignKeyRule && o.key == a && b in o.referencedColumns;
      SortedEdgesAre(ToColumn, o.referencedColumns, a);
      assert e in ConstraintEdges(o);
    } else {
      var kind := if edgeType == "COLUMN_IN_PRIMARY_KEY" then InPrimaryKey
                  else if edgeType == "COLUMN_IN_UNIQUE" then InUnique
                  else if edgeType == "COLUMN_IN_CHECK" then InCheck else FromColumn;
      e := Plain(kind, a, b);
      var o :| o in s.constraints && a in o.columns && o.key == b
               && o.kind == (if kind == InPrimaryKey then PrimaryKeyRule else if kind == InUnique then UniqueRule
                             else if kind == InCheck then CheckRule else ForeignKeyRule);
      SortedEdgesAre(kind, o.columns, b);
      assert e in ConstraintEdges(o);
    }
    ObjectEdges(s, e);
  }

  lemma DependsPlanned(s: SchemaSnapshot, edgeType: string, a: ObjectKey, b: ObjectKey) returns (e: PlannedEdge)
    requires Depends(s, edgeType, a, b)
    ensures e in TypedEdges(s) && e == Plain(e.kind, a, b) && EdgeType(e.kind) == edgeType
  {
    hide EdgeType, TypedEdges, ViewEdges, RoutineEdges;
    DependencyNames();
    if (edgeType == "ROUTINE_DEPENDS_ON_TABLE" || edgeType == "ROUTINE_DEPENDS_ON_COLUMN")
        && exists o :: o in s.routines && o.key == a && b in o.dependsOn {
      e := Plain(if b.objectKind == Table then RoutineOnTable else RoutineOnColumn, a, b);
      var o :| o in s.routines && o.key == a && b in o.dependsOn;
      RoutineEdgesAre(o);
      assert e in RoutineEdges(o);
    } else {
      e := Plain(if b.objectKind == Table then ViewOnTable else if b.objectKind == Column then ViewOnColumn
                 else ViewOnView, a, b);
      var o :| o in s.views && o.key == a && b in o.dependsOn;
      ViewEdgesAre(o);
      assert e in ViewEdges(o);
    }
    ObjectEdges(s, e);
  }

  lemma TriggersPlanned(s: SchemaSnapshot, edgeType: string, a: ObjectKey, b: ObjectKey) returns (e: PlannedEdge)
    requires Triggers(s, edgeType, a, b)
    ensures e in TypedEdges(s) && e == Plain(e.kind, a, b) && EdgeType(e.kind) == edgeType
  {
    hide EdgeType, TypedEdges;
    TriggerNames();
    if edgeType == "TRIGGER_EXECUTES_ROUTINE"
        && exists o :: o in s.triggers && o.key == a && o.executesRoutineKey == Some(b) {
      e := Plain(Executes, a, b);
      var o :| o in s.triggers && o.key == a && o.executesRoutineKey == Some(b);
      assert e in TriggerEdges(o);
    } else if ((edgeType == "TABLE_HAS_TRIGGER" && a.objectKind != View)
                || (edgeType == "VIEW_HAS_TRIGGER" && a.objectKind == View))
        && exists o :: o in s.triggers && o.tableKey == a && o.key == b {
      e := Plain(if a.objectKind == View then ViewHasTrigger else TableHasTrigger, a, b);
      var o :| o in s.triggers && o.tableKey == a && o.key == b;
      assert TriggerEdges(o)[0] == e;
    } else {
      e := Plain(if b.objectKind == View then TriggerOnView else TriggerOnTable, a, b);
      var o :| o in s.triggers && o.key == a && o.tableKey == b;
      assert TriggerEdges(o)[1] == e;
    }
    ObjectEdges(s, e);
  }

  lemma ParentPlanned(s: CanonicalSchemaSnapshot, edgeType: string, a: ObjectKey, b: ObjectKey)
    returns (e: PlannedEdge)
    requires Parents(s, edgeType, a, b)
    ensures e in MetadataEdges(s.metadata) && e == Plain(e.kind, a, b) && EdgeType(e.kind) == edgeType
  {
    e := Plain(ParentOf, a, b);
    var o :| o in s.metadata.objects && o.parentKey == Some(a) && o.key == b;
    FlatMapInto(s.metadata.objects, ParentEdges, o, e);
  }

  /** What the snapshot says is planned. */
  lemma SaidIsPlanned(s: CanonicalSchemaSnapshot, edgeType: string, a: ObjectKey, b: ObjectKey)
    returns (e: PlannedEdge)
    requires Says(s, edgeType, a, b)
    ensures e in EdgesInOrder(s) && e == Plain(e.kind, a, b) && EdgeType(e.kind) == edgeType
  {
    hide Owns, ListsColumn, Depends, Triggers, Parents, TypedEdges, MetadataEdges;
    if Owns(s.schema, edgeType, a, b) {
      e := OwnsPlanned(s.schema, edgeType, a, b);
    } else if ListsColumn(s.schema, edgeType, a, b) {
      e := ListsPlanned(s.schema, edgeType, a, b);
    } else if Depends(s.schema, edgeType, a, b) {
      e := DependsPlanned(s.schema, edgeType, a, b);
    } else if Triggers(s.schema, edgeType, a, b) {
      e := TriggersPlanned(s.schema, edgeType, a, b);
    } else {
      e := ParentPlanned(s, edgeType, a, b);
    }
  }

  // ------------------------------------------------------------- any order

  ghost predicate SameMembers(x: CanonicalSchemaSnapshot, s: CanonicalSchemaSnapshot) {
    && (forall o :: o in x.schema.schemas <==> o in s.schema.schemas)
    && (forall o :: o in x.schema.tables <==> o in s.schema.tables)
    && (forall o :: o in x.schema.columns <==> o in s.schema.columns)
    && (forall o :: o in x.schema.constraints <==> o in s.schema.constraints)
    && (forall o :: o in x.schema.indexes <==> o in s.schema.indexes)
    && (forall o :: o in x.schema.views <==> o in s.schema.views)
    && (forall o :: o in x.schema.triggers <==> o in s.schema.triggers)
    && (forall o :: o in x.schema.routines <==> o in s.schema.routines)
    && (forall o :: o in x.metadata.objects <==> o in s.metadata.objects)
    && (forall r :: r in x.metadata.relationships <==> r in s.metadata.relationships)
  }

  lemma InKeyOrderMembers(s: CanonicalSchemaSnapshot)
    ensures SameMembers(InKeyOrder(s), s)
  {
    hide StableSort;
    StableSortElements(s.schema.schemas, SchemaOrder, StableSort(s.schema.schemas, SchemaOrder));
    StableSortElements(s.schema.tables, TableOrder, StableSort(s.schema.tables, TableOrder));
    StableSortElements(s.schema.columns, ColumnOrder, StableSort(s.schema.columns, ColumnOrder));
    StableSortElements(s.schema.constraints, ConstraintOrder, StableSort(s.schema.constraints, ConstraintOrder));
    StableSortElements(s.schema.indexes, IndexOrder, StableSort(s.schema.indexes, IndexOrder));
    StableSortElements(s.schema.views, ViewOrder, StableSort(s.schema.views, ViewOrder));
    StableSortElements(s.schema.triggers, TriggerOrder, StableSort(s.schema.triggers, TriggerOrder));
    StableSortElements(s.schema.routines, RoutineOrder, StableSort(s.schema.routines, RoutineOrder));
    StableSortElements(s.metadata.objects, MetadataOrder, StableSort(s.metadata.objects, MetadataOrder));
    StableSortElements(s.metadata.relationships, BuildOrder, StableSort(s.metadata.relationships, BuildOrder));
  }

  lemma SameOwns(x: SchemaSnapshot, s: SchemaSnapshot, m: CanonicalMetadata, n: CanonicalMetadata, t: string,
                 a: ObjectKey, b: ObjectKey)
    requires SameMembers(CanonicalSchemaSnapshot(x, m), CanonicalSchemaSnapshot(s, n))
    ensures Owns(x, t, a, b) <==> Owns(s, t, a, b)
  {
  }

  lemma SameListing(x: SchemaSnapshot, s: SchemaSnapshot, m: CanonicalMetadata, n: CanonicalMetadata, t: string,
                  a: ObjectKey, b: ObjectKey)
    requires SameMembers(CanonicalSchemaSnapshot(x, m), CanonicalSchemaSnapshot(s, n))
    ensures ListsColumn(x, t, a, b) <==> ListsColumn(s, t, a, b)
    ensures Depends(x, t, a, b) <==> Depends(s, t, a, b)
    ensures Triggers(x, t, a, b) <==> Triggers(s, t, a, b)
  {
  }

  lemma SameSaid(x: CanonicalSchemaSnapshot, s: CanonicalSchemaSnapshot, t: string, a: ObjectKey, b: ObjectKey)
    requires SameMembers(x, s)
    ensures Says(x, t, a, b) <==> Says(s, t, a, b)
  {
    hide Owns, ListsColumn, Depends, Triggers;
    SameOwns(x.schema, s.schema, x.metadata, s.metadata, t, a, b);
    SameListing(x.schema, s.schema, x.metadata, s.metadata, t, a, b);
  }

  // -------------------------------------------------------------- planned edges

  /** The planned edges are exactly what the snapshot says and its relationships. */
  lemma PlannedIsSaid(s: CanonicalSchemaSnapshot, e: PlannedEdge)
    requires e in EdgePlan(s)
    ensures match e.relationship
            case None => Says(s, EdgeType(e.kind), e.from, e.to)
            case Some(r) => r in s.metadata.relationships && e == RelationshipEdge(r)
  {
    hide Says, TypedEdges, MetadataEdges, InKeyOrder, SameMembers;
    var x := InKeyOrder(s);
    TypedTold(x);
    MetadataTold(x);
    assert Told(x, e);
    InKeyOrderMembers(s);
    SameSaid(x, s, EdgeType(e.kind), e.from, e.to);
    SameRelationships(x, s);
  }

  lemma SameRelationships(x: CanonicalSchemaSnapshot, s: CanonicalSchemaSnapshot)
    requires SameMembers(x, s)
    ensures forall r :: r in x.metadata.relationships <==> r in s.metadata.relationships
  {
  }

  lemma SaidInPlan(s: CanonicalSchemaSnapshot, edgeType: string, a: ObjectKey, b: ObjectKey)
    returns (e: PlannedEdge)
    requires Says(s, edgeType, a, b)
    ensures e in EdgePlan(s) && e == Plain(e.kind, a, b) && EdgeType(e.kind) == edgeType
  {
    hide Says, InKeyOrder, SameMembers, EdgesInOrder;
    InKeyOrderMembers(s);
    SameSaid(InKeyOrder(s), s, edgeType, a, b);
    e := SaidIsPlanned(InKeyOrder(s), edgeType, a, b);
  }

  lemma RelationshipInPlan(s: CanonicalSchemaSnapshot, r: MetadataRelationship)
    requires r in s.metadata.relationships
    ensures RelationshipEdge(r) in EdgePlan(s)
  {
    hide InKeyOrder, SameMembers, TypedEdges;
    var x := InKeyOrder(s);
    InKeyOrderMembers(s);
    SameRelationships(x, s);
    var i :| 0 <= i < |x.metadata.relationships| && x.metadata.relationships[i] == r;
    assert MapSeq(RelationshipEdge, x.metadata.relationships)[i] == RelationshipEdge(r);
    assert RelationshipEdge(r) in MetadataEdges(x.metadata);
  }

  lemma NamesAgree(kind: MetadataRelationshipKind, edgeType: string)
    ensures Named(kind, edgeType) <==> edgeType == GraphEdgeType(kind)
  {
  }

  // ----------------------------------------------------------- what is stored

  function PlainRow(snapshotKey: string, edgeType: string, a: ObjectKey, b: ObjectKey): EdgeRecord {
    EdgeRecord(snapshotKey, edgeType + ":" + Print(a) + "->" + Print(b), Print(a), Print(b), edgeType,
               OfEdgeType(edgeType))
  }

  function RelationshipRow(snapshotKey: string, edgeType: string, r: MetadataRelationship): EdgeRecord {
    EdgeRecord(snapshotKey,
               edgeType + ":" + Print(r.fromKey) + "->" + Print(r.toKey) + ":" + OrdinalText(r.ordinal),
               Print(r.fromKey), Print(r.toKey), edgeType, OfRelationship(r))
  }

  /** The row of something the snapshot says, or of one of its relationships. */
  ghost predicate RowSaid(snapshotKey: string, s: CanonicalSchemaSnapshot, row: EdgeRecord) {
    || (exists a, b :: Says(s, row.edgeType, a, b) && row == PlainRow(snapshotKey, row.edgeType, a, b))
    || (exists r :: r in s.metadata.relationships && Named(r.kind, row.edgeType)
                    && row == RelationshipRow(snapshotKey, row.edgeType, r))
  }

  lemma PlainRowOf(snapshotKey: string, e: PlannedEdge)
    requires e.relationship.None?
    ensures EdgeRowOf(snapshotKey, e) == PlainRow(snapshotKey, EdgeType(e.kind), e.from, e.to)
  {
    hide EdgeType, Print;
    var text := EdgeType(e.kind) + ":" + Print(e.from) + "->" + Print(e.to);
    assert text + [] == text;
  }

  lemma RelationshipRowOf(snapshotKey: string, r: MetadataRelationship)
    ensures EdgeRowOf(snapshotKey, RelationshipEdge(r)) == RelationshipRow(snapshotKey, GraphEdgeType(r.kind), r)
  {
    hide GraphEdgeType, Print;
    var text := GraphEdgeType(r.kind) + ":" + Print(r.fromKey) + "->" + Print(r.toKey);
    assert text + (":" + OrdinalText(r.ordinal)) == text + ":" + OrdinalText(r.ordinal);
  }

  lemma PlannedRowSaid(snapshotKey: string, s: CanonicalSchemaSnapshot, e: PlannedEdge)
    requires e in EdgePlan(s)
    ensures RowSaid(snapshotKey, s, EdgeRowOf(snapshotKey, e))
  {
    hide EdgePlan, EdgeType, GraphEdgeType, Print, Says, Named, EdgeRowOf, PlainRow, RelationshipRow;
    PlannedIsSaid(s, e);
    match e.relationship
    case None =>
      PlainRowOf(snapshotKey, e);
      PlainRowType(snapshotKey, EdgeType(e.kind), e.from, e.to);
    case Some(r) =>
      RelationshipRowOf(snapshotKey, r);
      RelationshipRowType(snapshotKey, GraphEdgeType(r.kind), r);
      NamesAgree(r.kind, GraphEdgeType(r.kind));
  }

  lemma PlainRowType(snapshotKey: string, edgeType: string, a: ObjectKey, b: ObjectKey)
    ensures PlainRow(snapshotKey, edgeType, a, b).edgeType == edgeType
  {
  }

  lemma RelationshipRowType(snapshotKey: string, edgeType: string, r: MetadataRelationship)
    ensures RelationshipRow(snapshotKey, edgeType, r).edgeType == edgeType
  {
  }

  lemma SaidRowPlanned(snapshotKey: string, s: CanonicalSchemaSnapshot, row: EdgeRecord) returns (e: PlannedEdge)
    requires RowSaid(snapshotKey, s, row)
    ensures e in EdgePlan(s) && row == EdgeRowOf(snapshotKey, e)
  {
    hide EdgePlan, EdgeType, GraphEdgeType, Print, Says, Named, EdgeRowOf, PlainRow, RelationshipRow;
    if a, b :| Says(s, row.edgeType, a, b) && row == PlainRow(snapshotKey, row.edgeType, a, b) {
      e := SaidInPlan(s, row.edgeType, a, b);
      PlainRowOf(snapshotKey, e);
    } else {
      var r :| r in s.metadata.relationships && Named(r.kind, row.edgeType)
               && row == RelationshipRow(snapshotKey, row.edgeType, r);
      e := RelationshipEdge(r);
      RelationshipInPlan(s, r);
      RelationshipRowOf(snapshotKey, r);
      NamesAgree(r.kind, row.edgeType);
    }
  }

  /** Every row of the stored graph says what the snapshot does; all that the snapshot says is stored, where
      no two edges share a text key, and otherwise there is at least a row under its text key. */
  lemma StoredRowsAre(snapshotKey: string, s: CanonicalSchemaSnapshot)
    ensures forall row :: row in GraphOf(snapshotKey, s).edges.Values ==> RowSaid(snapshotKey, s, row)
    ensures forall row :: RowSaid(snapshotKey, s, row) ==> row.edgeKey in GraphOf(snapshotKey, s).edges
    ensures NoDuplicates(Texts(EdgePlan(s))) ==>
              forall row :: RowSaid(snapshotKey, s, row) ==> row in GraphOf(snapshotKey, s).edges.Values
  {
    hide EdgePlan, RowSaid, EdgeRowOf, NoDuplicates, Texts;
    var rows, edges := EdgeRows(snapshotKey, s), GraphOf(snapshotKey, s).edges;
    UpsertedHolds(rows, RowEdgeKey, edges);
    forall row | row in edges.Values ensures RowSaid(snapshotKey, s, row) {
      var i :| 0 <= i < |rows| && rows[i] == row;
      PlannedRowSaid(snapshotKey, s, EdgePlan(s)[i]);
    }
    forall row | RowSaid(snapshotKey, s, row)
      ensures row.edgeKey in edges && (NoDuplicates(Texts(EdgePlan(s))) ==> row in edges.Values)
    {
      var e := SaidRowPlanned(snapshotKey, s, row);
      var i :| 0 <= i < |EdgePlan(s)| && EdgePlan(s)[i] == e;
      assert rows[i] == row;
      if NoDuplicates(Texts(EdgePlan(s))) {
        RowTexts(snapshotKey, s);
        ValuesAreRows(rows, RowEdgeKey, edges);
      }
    }
  }

  lemma RowTexts(snapshotKey: string, s: CanonicalSchemaSnapshot)
    ensures MapSeq(RowEdgeKey, EdgeRows(snapshotKey, s)) == Texts(EdgePlan(s))
  {
    hide EdgePlan;
  }

  /** The stored graph has an edge of a type from one object to another. */
  ghost predicate HasEdge(g: Rows, edgeType: string, a: ObjectKey, b: ObjectKey) {
    exists row :: row in g.edges.Values && row.edgeType == edgeType && row.edgeFrom == Print(a)
        && row.edgeTo == Print(b)
  }

  /** The edges of a graph are what a snapshot says, for every type and all objects. */
  ghost predicate TellsOf(g: Rows, s: CanonicalSchemaSnapshot) {
    forall edgeType, a, b :: HasEdge(g, edgeType, a, b) <==> Relates(s, edgeType, a, b)
  }

  lemma RowMeansRelated(snapshotKey: string, s: CanonicalSchemaSnapshot, edgeType: string, a: ObjectKey, b: ObjectKey,
                        row: EdgeRecord)
    requires RowSaid(snapshotKey, s, row)
    requires row.edgeType == edgeType && row.edgeFrom == Print(a) && row.edgeTo == Print(b)
    ensures Relates(s, edgeType, a, b)
  {
    hide Says, Named, Print;
    if x, y :| Says(s, row.edgeType, x, y) && row == PlainRow(snapshotKey, row.edgeType, x, y) {
      PrintInjective(a, x);
      PrintInjective(b, y);
    } else {
      var r :| r in s.metadata.relationships && Named(r.kind, row.edgeType)
               && row == RelationshipRow(snapshotKey, row.edgeType, r);
      PrintInjective(a, r.fromKey);
      PrintInjective(b, r.toKey);
    }
  }

  lemma RelatedHasRow(snapshotKey: string, s: CanonicalSchemaSnapshot, edgeType: string, a: ObjectKey, b: ObjectKey)
    returns (row: EdgeRecord)
    requires Relates(s, edgeType, a, b)
    ensures RowSaid(snapshotKey, s, row)
    ensures row.edgeType == edgeType && row.edgeFrom == Print(a) && row.edgeTo == Print(b)
  {
    hide Says, Named, Print;
    if Says(s, edgeType, a, b) {
      row := PlainRow(snapshotKey, edgeType, a, b);
    } else {
      var r :| r in s.metadata.relationships && Named(r.kind, edgeType) && r.fromKey == a && r.toKey == b;
      row := RelationshipRow(snapshotKey, edgeType, r);
    }
  }

  /** Where no two edges share a text key, the stored graph has an edge of a type between two objects exactly
      when the snapshot relates them that way; and in every case it has no other edges. */
  lemma StoredGraphTells(snapshotKey: string, s: CanonicalSchemaSnapshot)
    ensures forall edgeType, a, b :: HasEdge(GraphOf(snapshotKey, s), edgeType, a, b) ==> Relates(s, edgeType, a, b)
    ensures NoDuplicates(Texts(EdgePlan(s))) ==> TellsOf(GraphOf(snapshotKey, s), s)
  {
    hide Relates, GraphOf, EdgePlan, RowSaid, Print, NoDuplicates, Texts;
    var g := GraphOf(snapshotKey, s);
    StoredRowsAre(snapshotKey, s);
    forall edgeType, a, b | HasEdge(g, edgeType, a, b) ensures Relates(s, edgeType, a, b) {
      var row :| row in g.edges.Values && row.edgeType == edgeType && row.edgeFrom == Print(a)
                 && row.edgeTo == Print(b);
      RowMeansRelated(snapshotKey, s, edgeType, a, b, row);
    }
    if NoDuplicates(Texts(EdgePlan(s))) {
      forall edgeType, a, b | Relates(s, edgeType, a, b) ensures HasEdge(g, edgeType, a, b) {
        var row := RelatedHasRow(snapshotKey, s, edgeType, a, b);
      }
    }
  }

  /** For a well-formed snapshot whose names hold no separators nothing more is asked. */
  lemma PlainGraphTells(snapshotKey: string, s: CanonicalSchemaSnapshot)
    requires CanonicalWellFormed(s) && PlainNames(s)
    ensures TellsOf(GraphOf(snapshotKey, s), s)
  {
    hide CanonicalWellFormed, PlainNames, GraphOf, EdgePlan, NoDuplicates, Texts, TellsOf;
    PlainTextsDistinct(s);
    StoredGraphTells(snapshotKey, s);
  }

  /** For a verified snapshot that projects, either. */
  lemma CertifiedGraphTells(snapshotKey: string, c: CertifiedSchemaSnapshot)
    requires Verified(c) && Projects(c.snapshot)
    ensures TellsOf(GraphOf(snapshotKey, c.snapshot), c.snapshot)
  {
    hide Verified, GraphOf, EdgePlan, NoDuplicates, Texts, TellsOf;
    StoredGraphTells(snapshotKey, c.snapshot);
  }
}
