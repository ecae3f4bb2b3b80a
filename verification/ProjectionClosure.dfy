/** Validation closes the graph: every edge the builder plans for a well-formed snapshot joins two of
    its objects, and no two planned edges say the same thing (graph_builder.rs, snapshot_validation.rs). */
module ProjectionClosure {
  import opened Wrappers
  import opened Lists
  import opened Ordering
  import opened ObjectKeys
  import opened SchemaModel
  import opened SnapshotRules
  import opened CanonicalRules
  import opened Canonical
  import opened Projection

  // ------------------------------------------------------------ objects are known

  lemma PieceMember(s: SchemaSnapshot, e: Entry)
    requires || e in SchemaEntries(s.schemas) || e in TableEntries(s.tables) || e in ColumnEntries(s.columns)
             || e in ConstraintEntries(s.constraints) || e in IndexEntries(s.indexes) || e in ViewEntries(s.views)
             || e in TriggerEntries(s.triggers) || e in RoutineEntries(s.routines)
    ensures e.key in KnownKeys(Entries(s))
  {
    assert e in Entries(s);
  }

  lemma OwnKeysKnown(s: SchemaSnapshot)
    ensures forall o :: o in s.schemas ==> o.key in KnownKeys(Entries(s))
    ensures forall o :: o in s.tables ==> o.key in KnownKeys(Entries(s))
    ensures forall o :: o in s.columns ==> o.key in KnownKeys(Entries(s))
    ensures forall o :: o in s.constraints ==> o.key in KnownKeys(Entries(s))
    ensures forall o :: o in s.indexes ==> o.key in KnownKeys(Entries(s))
    ensures forall o :: o in s.views ==> o.key in KnownKeys(Entries(s))
    ensures forall o :: o in s.triggers ==> o.key in KnownKeys(Entries(s))
    ensures forall o :: o in s.routines ==> o.key in KnownKeys(Entries(s))
  {
    forall i | 0 <= i < |s.schemas| ensures s.schemas[i].key in KnownKeys(Entries(s)) {
      PieceMember(s, SchemaEntries(s.schemas)[i]);
    }
    forall i | 0 <= i < |s.tables| ensures s.tables[i].key in KnownKeys(Entries(s)) {
      PieceMember(s, TableEntries(s.tables)[i]);
    }
    forall i | 0 <= i < |s.columns| ensures s.columns[i].key in KnownKeys(Entries(s)) {
      PieceMember(s, ColumnEntries(s.columns)[i]);
    }
    forall i | 0 <= i < |s.constraints| ensures s.constraints[i].key in KnownKeys(Entries(s)) {
      PieceMember(s, ConstraintEntries(s.constraints)[i]);
    }
    forall i | 0 <= i < |s.indexes| ensures s.indexes[i].key in KnownKeys(Entries(s)) {
      PieceMember(s, IndexEntries(s.indexes)[i]);
    }
    forall i | 0 <= i < |s.views| ensures s.views[i].key in KnownKeys(Entries(s)) {
      PieceMember(s, ViewEntries(s.views)[i]);
    }
    forall i | 0 <= i < |s.triggers| ensures s.triggers[i].key in KnownKeys(Entries(s)) {
      PieceMember(s, TriggerEntries(s.triggers)[i]);
    }
    forall i | 0 <= i < |s.routines| ensures s.routines[i].key in KnownKeys(Entries(s)) {
      PieceMember(s, RoutineEntries(s.routines)[i]);
    }
  }

  lemma MetadataKeysKnown(x: CanonicalSchemaSnapshot)
    ensures KnownKeys(Entries(x.schema)) <= KnownKeys(AllEntries(x))
    ensures forall o :: o in x.metadata.objects ==> o.key in KnownKeys(AllEntries(x))
  {
    assert forall e :: e in Entries(x.schema) ==> e in AllEntries(x);
    forall i | 0 <= i < |x.metadata.objects| ensures x.metadata.objects[i].key in KnownKeys(AllEntries(x)) {
      assert MetadataEntries(x.metadata.objects)[i] in AllEntries(x);
    }
  }

  // ------------------------------------------------------------------ closure

  /** Both ends of an edge are objects of the snapshot. */
  predicate Joins(known: set<ObjectKey>, e: PlannedEdge) { e.from in known && e.to in known }

  predicate AllJoin(known: set<ObjectKey>, edges: seq<PlannedEdge>) { forall e :: e in edges ==> Joins(known, e) }

  lemma {:induction false} FlatMapJoins<T>(items: seq<T>, f: T -> seq<PlannedEdge>, known: set<ObjectKey>)
    requires forall x :: x in items ==> AllJoin(known, f(x))
    ensures AllJoin(known, FlatMap(items, f))
  {
    if items != [] { FlatMapJoins(items[1..], f, known); }
  }

  lemma SortedKeysJoin(kind: EdgeKind, keys: seq<ObjectKey>, key: ObjectKey, known: set<ObjectKey>)
    requires key in known && forall k :: k in keys ==> k in known
    ensures AllJoin(known, EdgesInto(kind, keys, key)) && AllJoin(known, EdgesOutOf(kind, key, keys))
  {
    StableSortElements(keys, ByKey, StableSort(keys, ByKey));
  }

  lemma ConstraintJoins(c: ConstraintObject, alias: string, known: set<ObjectKey>)
    requires c.key in known && ConstraintOk(known, alias, c)
    ensures AllJoin(known, ConstraintEdges(c))
  {
    SortedKeysJoin(InPrimaryKey, c.columns, c.key, known);
    SortedKeysJoin(FromColumn, c.columns, c.key, known);
    SortedKeysJoin(InUnique, c.columns, c.key, known);
    SortedKeysJoin(InCheck, c.columns, c.key, known);
    if c.kind == ForeignKeyRule { SortedKeysJoin(ToColumn, c.referencedColumns, c.key, known); }
  }

  lemma IndexJoins(i: IndexObject, alias: string, known: set<ObjectKey>)
    requires i.key in known && IndexOk(known, alias, i)
    ensures AllJoin(known, IndexEdges(i))
  {
    SortedKeysJoin(InIndex, i.columns, i.key, known);
  }

  lemma ViewJoins(v: ViewObject, alias: string, known: set<ObjectKey>)
    requires v.key in known && ViewOk(known, alias, v)
    ensures AllJoin(known, ViewEdges(v))
  {
    var sorted := StableSort(v.dependsOn, ByKey);
    StableSortElements(v.dependsOn, ByKey, sorted);
    FlatMapJoins(sorted, d => ViewDependencyEdges(v.key, d), known);
  }

  lemma RoutineJoins(r: RoutineObject, alias: string, known: set<ObjectKey>)
    requires r.key in known && RoutineOk(known, alias, r)
    ensures AllJoin(known, RoutineEdges(r))
  {
    var sorted := StableSort(r.dependsOn, ByKey);
    StableSortElements(r.dependsOn, ByKey, sorted);
    FlatMapJoins(sorted, d => RoutineDependencyEdges(r.key, d), known);
  }

  lemma OwnersJoin(s: SchemaSnapshot, known: set<ObjectKey>)
    requires ObjectsOk(s, known) && known == KnownKeys(Entries(s))
    ensures AllJoin(known, FlatMap(s.schemas, SchemaEdges)) && AllJoin(known, FlatMap(s.tables, TableEdges))
    ensures AllJoin(known, FlatMap(s.columns, ColumnEdges)) && AllJoin(known, FlatMap(s.triggers, TriggerEdges))
  {
    OwnKeysKnown(s);
    FlatMapJoins(s.schemas, SchemaEdges, known);
    FlatMapJoins(s.tables, TableEdges, known);
    FlatMapJoins(s.columns, ColumnEdges, known);
    FlatMapJoins(s.triggers, TriggerEdges, known);
  }

  lemma DependentsJoin(s: SchemaSnapshot, known: set<ObjectKey>)
    requires ObjectsOk(s, known) && known == KnownKeys(Entries(s))
    ensures AllJoin(known, FlatMap(s.constraints, ConstraintEdges)) && AllJoin(known, FlatMap(s.indexes, IndexEdges))
    ensures AllJoin(known, FlatMap(s.views, ViewEdges)) && AllJoin(known, FlatMap(s.routines, RoutineEdges))
  {
    OwnKeysKnown(s);
    forall c | c in s.constraints ensures AllJoin(known, ConstraintEdges(c)) {
      ConstraintJoins(c, s.connectionAlias, known);
    }
    FlatMapJoins(s.constraints, ConstraintEdges, known);
    forall i | i in s.indexes ensures AllJoin(known, IndexEdges(i)) { IndexJoins(i, s.connectionAlias, known); }
    FlatMapJoins(s.indexes, IndexEdges, known);
    forall v | v in s.views ensures AllJoin(known, ViewEdges(v)) { ViewJoins(v, s.connectionAlias, known); }
    FlatMapJoins(s.views, ViewEdges, known);
    forall r | r in s.routines ensures AllJoin(known, RoutineEdges(r)) { RoutineJoins(r, s.connectionAlias, known); }
    FlatMapJoins(s.routines, RoutineEdges, known);
  }

  lemma TypedJoin(s: SchemaSnapshot)
    requires WellFormed(s)
    ensures AllJoin(KnownKeys(Entries(s)), TypedEdges(s))
  {
    OwnersJoin(s, KnownKeys(Entries(s)));
    DependentsJoin(s, KnownKeys(Entries(s)));
  }

  lemma MetadataJoin(x: CanonicalSchemaSnapshot, known: set<ObjectKey>)
    requires MetadataOk(x, known) && known == KnownKeys(AllEntries(x))
    ensures AllJoin(known, MetadataEdges(x.metadata))
  {
    MetadataKeysKnown(x);
    FlatMapJoins(x.metadata.objects, ParentEdges, known);
    var related := MapSeq(RelationshipEdge, x.metadata.relationships);
    forall i | 0 <= i < |related| ensures Joins(known, related[i]) {
      assert RelationshipOk(known, x.metadata.relationships[i]);
    }
  }

  lemma InOrderJoin(x: CanonicalSchemaSnapshot)
    requires CanonicalWellFormed(x)
    ensures AllJoin(KnownKeys(AllEntries(x)), EdgesInOrder(x))
  {
    TypedJoin(x.schema);
    MetadataKeysKnown(x);
    MetadataJoin(x, KnownKeys(AllEntries(x)));
  }

  /** No edge planned for a well-formed snapshot dangles. */
  lemma EdgePlanJoins(s: CanonicalSchemaSnapshot)
    requires CanonicalWellFormed(s)
    ensures AllJoin(KnownKeys(AllEntries(s)), EdgePlan(s))
  {
    hide CanonicalWellFormed;
    InKeyOrderReorders(s);
    CanonicalWellFormedReordered(InKeyOrder(s), s);
    AllEntriesReordered(InKeyOrder(s), s);
    InOrderJoin(InKeyOrder(s));
  }

  // ----------------------------------------------------------- distinct edges

  /** What identifies an edge: kind, ends and, for a relationship, its ordinal. */
  function IdentityOf(e: PlannedEdge): PlannedEdge {
    match e.relationship
    case Some(r) => e.(relationship := Some(r.(properties := map[])))
    case None => e
  }

  /** The object whose collection entry an edge was written for. */
  function Owner(e: PlannedEdge): ObjectKey {
    if e.kind in {ToColumn, ViewOnTable, ViewOnColumn, ViewOnView, TriggerOnTable, TriggerOnView, Executes,
                  RoutineOnTable, RoutineOnColumn}
    then e.from else e.to
  }

  /** Where in the inserting code an edge of a kind comes from. */
  function Stage(kind: EdgeKind): nat {
    match kind
    case HasSchema => 0
    case HasTable => 1
    case HasColumn => 2
    case HasConstraint => 3 case InPrimaryKey => 3 case FromColumn => 3 case ToColumn => 3 case InUnique => 3
    case InCheck => 3
    case HasIndex => 4 case InIndex => 4
    case HasView => 5 case ViewOnTable => 5 case ViewOnColumn => 5 case ViewOnView => 5
    case TableHasTrigger => 6 case TriggerOnTable => 6 case ViewHasTrigger => 6 case TriggerOnView => 6
    case Executes => 6
    case HasRoutine => 7 case RoutineOnTable => 7 case RoutineOnColumn => 7
    case ParentOf => 8
    case Related(_) => 9
  }

  /** Edges of one stage, none repeated, none with a payload of its own. */
  predicate Staged(edges: seq<PlannedEdge>, low: nat, high: nat) {
    NoDuplicates(edges) && forall e :: e in edges ==> low <= Stage(e.kind) < high && e.relationship.None?
  }

  lemma StagedJoined(a: seq<PlannedEdge>, b: seq<PlannedEdge>, low: nat, middle: nat, high: nat)
    requires Staged(a, low, middle) && Staged(b, middle, high) && low <= middle <= high
    ensures Staged(a + b, low, high)
  {
    JoinedDistinct(a, b);
  }

  /** The edges of one object. */
  predicate OfObject(edges: seq<PlannedEdge>, key: ObjectKey, stage: nat) {
    Staged(edges, stage, stage + 1) && forall e :: e in edges ==> Owner(e) == key
  }

  lemma StageOf<T>(items: seq<T>, f: T -> seq<PlannedEdge>, mark: T -> ObjectKey, stage: nat)
    requires NoDuplicates(MapSeq(mark, items))
    requires forall x :: x in items ==> OfObject(f(x), mark(x), stage)
    ensures Staged(FlatMap(items, f), stage, stage + 1)
  {
    FlatMapNoDuplicates(items, f, mark, Owner);
    forall e | e in FlatMap(items, f) ensures stage <= Stage(e.kind) < stage + 1 && e.relationship.None? {
      var x := FlatMapFrom(items, f, e);
    }
  }

  lemma SortedKeysDistinct(kind: EdgeKind, keys: seq<ObjectKey>, key: ObjectKey)
    requires NoDuplicates(keys) && kind in {InPrimaryKey, FromColumn, ToColumn, InUnique, InCheck, InIndex}
    ensures Staged(EdgesInto(kind, keys, key), Stage(kind), Stage(kind) + 1)
            && forall e :: e in EdgesInto(kind, keys, key) ==> e.kind == kind && e.to == key
    ensures Staged(EdgesOutOf(kind, key, keys), Stage(kind), Stage(kind) + 1)
            && forall e :: e in EdgesOutOf(kind, key, keys) ==> e.kind == kind && e.from == key
  {
    var sorted := StableSort(keys, ByKey);
    StableSortKeeps(keys, ByKey);
    NoDuplicatesPermuted(keys, sorted);
    var into, out := EdgesInto(kind, keys, key), EdgesOutOf(kind, key, keys);
    forall i, j | 0 <= i < j < |sorted| ensures into[i] != into[j] && out[i] != out[j] {
      assert into[i].from == sorted[i] && into[j].from == sorted[j] && out[i].to == sorted[i] && out[j].to == sorted[j];
    }
  }

  lemma ConstraintColumnsDistinct(c: ConstraintObject)
    requires NoDuplicates(c.columns) && NoDuplicates(c.referencedColumns)
    ensures OfObject(ConstraintColumnEdges(c), c.key, 3)
            && forall e :: e in ConstraintColumnEdges(c) ==> e.kind != HasConstraint
  {
    match c.kind
    case PrimaryKeyRule => SortedKeysDistinct(InPrimaryKey, c.columns, c.key);
    case UniqueRule => SortedKeysDistinct(InUnique, c.columns, c.key);
    case CheckRule => SortedKeysDistinct(InCheck, c.columns, c.key);
    case ForeignKeyRule =>
      SortedKeysDistinct(FromColumn, c.columns, c.key);
      SortedKeysDistinct(ToColumn, c.referencedColumns, c.key);
      JoinedDistinct(EdgesInto(FromColumn, c.columns, c.key), EdgesOutOf(ToColumn, c.key, c.referencedColumns));
  }

  lemma ConstraintDistinct(c: ConstraintObject)
    requires NoDuplicates(c.columns) && NoDuplicates(c.referencedColumns)
    ensures OfObject(ConstraintEdges(c), c.key, 3)
  {
    ConstraintColumnsDistinct(c);
    JoinedDistinct([Plain(HasConstraint, c.tableKey, c.key)], ConstraintColumnEdges(c));
  }

  lemma IndexDistinct(i: IndexObject)
    requires NoDuplicates(i.columns)
    ensures OfObject(IndexEdges(i), i.key, 4)
  {
    SortedKeysDistinct(InIndex, i.columns, i.key);
    JoinedDistinct([Plain(HasIndex, i.tableKey, i.key)], EdgesInto(InIndex, i.columns, i.key));
  }

  /** Each dependency gives at most one edge, which leads to it. */
  lemma DependenciesDistinct(keys: seq<ObjectKey>, f: ObjectKey -> seq<PlannedEdge>)
    requires NoDuplicates(keys) && forall d :: |f(d)| <= 1 && forall e :: e in f(d) ==> e.to == d
    ensures NoDuplicates(FlatMap(StableSort(keys, ByKey), f))
  {
    var sorted := StableSort(keys, ByKey);
    StableSortKeeps(keys, ByKey);
    NoDuplicatesPermuted(keys, sorted);
    assert MapSeq((d: ObjectKey) => d, sorted) == sorted;
    FlatMapNoDuplicates(sorted, f, (d: ObjectKey) => d, (e: PlannedEdge) => e.to);
  }

  lemma ViewDependenciesLead(v: ViewObject, f: ObjectKey -> seq<PlannedEdge>, edges: seq<PlannedEdge>)
    requires (forall d :: f(d) == ViewDependencyEdges(v.key, d)) && edges == FlatMap(StableSort(v.dependsOn, ByKey), f)
    ensures forall e :: e in edges ==>
              e.kind in {ViewOnTable, ViewOnColumn, ViewOnView} && e.from == v.key && e.relationship.None?
  {
    forall e | e in edges ensures e.kind in {ViewOnTable, ViewOnColumn, ViewOnView} && e.from == v.key
        && e.relationship.None? {
      var d := FlatMapFrom(StableSort(v.dependsOn, ByKey), f, e);
    }
  }

  lemma ViewDistinct(v: ViewObject)
    requires NoDuplicates(v.dependsOn)
    ensures OfObject(ViewEdges(v), v.key, 5)
  {
    hide StableSort, FlatMap;
    var f := d => ViewDependencyEdges(v.key, d);
    var edges := FlatMap(StableSort(v.dependsOn, ByKey), f);
    DependenciesDistinct(v.dependsOn, f);
    ViewDependenciesLead(v, f, edges);
    JoinedDistinct([Plain(HasView, v.schemaKey, v.key)], edges);
  }

  lemma RoutineDependenciesLead(r: RoutineObject, f: ObjectKey -> seq<PlannedEdge>, edges: seq<PlannedEdge>)
    requires (forall d :: f(d) == RoutineDependencyEdges(r.key, d))
             && edges == FlatMap(StableSort(r.dependsOn, ByKey), f)
    ensures forall e :: e in edges ==>
              e.kind in {RoutineOnTable, RoutineOnColumn} && e.from == r.key && e.relationship.None?
  {
    forall e | e in edges ensures e.kind in {RoutineOnTable, RoutineOnColumn} && e.from == r.key
        && e.relationship.None? {
      var d := FlatMapFrom(StableSort(r.dependsOn, ByKey), f, e);
    }
  }

  lemma RoutineDistinct(r: RoutineObject)
    requires NoDuplicates(r.dependsOn)
    ensures OfObject(RoutineEdges(r), r.key, 7)
  {
    hide StableSort, FlatMap;
    var f := d => RoutineDependencyEdges(r.key, d);
    var edges := FlatMap(StableSort(r.dependsOn, ByKey), f);
    DependenciesDistinct(r.dependsOn, f);
    RoutineDependenciesLead(r, f, edges);
    JoinedDistinct([Plain(HasRoutine, r.schemaKey, r.key)], edges);
  }

  lemma SplitDistinct(a: seq<Entry>, b: seq<Entry>)
    requires NoDuplicates(KeysOf(a + b))
    ensures NoDuplicates(KeysOf(a)) && NoDuplicates(KeysOf(b))
  {
    var all := KeysOf(a + b);
    forall i, j | 0 <= i < j < |a| ensures KeysOf(a)[i] != KeysOf(a)[j] { assert all[i] != all[j]; }
    forall i, j | 0 <= i < j < |b| ensures KeysOf(b)[i] != KeysOf(b)[j] { assert all[|a| + i] != all[|a| + j]; }
  }

  lemma NinePieces(a: seq<Entry>, b: seq<Entry>, c: seq<Entry>, d: seq<Entry>, e: seq<Entry>, f: seq<Entry>,
                   g: seq<Entry>, h: seq<Entry>, i: seq<Entry>)
    requires NoDuplicates(KeysOf(a + b + c + d + e + f + g + h + i))
    ensures NoDuplicates(KeysOf(b)) && NoDuplicates(KeysOf(c)) && NoDuplicates(KeysOf(d)) && NoDuplicates(KeysOf(e))
    ensures NoDuplicates(KeysOf(f)) && NoDuplicates(KeysOf(g)) && NoDuplicates(KeysOf(h)) && NoDuplicates(KeysOf(i))
  {
    SplitDistinct(a + b + c + d + e + f + g + h, i);
    SplitDistinct(a + b + c + d + e + f + g, h);
    SplitDistinct(a + b + c + d + e + f, g);
    SplitDistinct(a + b + c + d + e, f);
    SplitDistinct(a + b + c + d, e);
    SplitDistinct(a + b + c, d);
    SplitDistinct(a + b, c);
    SplitDistinct(a, b);
  }

  lemma MarksAreKeys<T>(items: seq<T>, mark: T -> ObjectKey, entries: seq<Entry>)
    requires NoDuplicates(KeysOf(entries)) && |entries| == |items|
             && forall i :: 0 <= i < |items| ==> mark(items[i]) == entries[i].key
    ensures NoDuplicates(MapSeq(mark, items))
  {
    forall i, j | 0 <= i < j < |items| ensures mark(items[i]) != mark(items[j]) {
      assert KeysOf(entries)[i] != KeysOf(entries)[j];
    }
  }

  function SchemaKey(o: SchemaObject): ObjectKey { o.key }
  function TableKey(o: TableObject): ObjectKey { o.key }
  function ColumnKey(o: ColumnObject): ObjectKey { o.key }
  function ConstraintKey(o: ConstraintObject): ObjectKey { o.key }
  function IndexKey(o: IndexObject): ObjectKey { o.key }
  function ViewKey(o: ViewObject): ObjectKey { o.key }
  function TriggerKey(o: TriggerObject): ObjectKey { o.key }
  function RoutineKey(o: RoutineObject): ObjectKey { o.key }
  function MetadataKey(o: MetadataObject): ObjectKey { o.key }

  /** No collection of a well-formed snapshot names a key twice. */
  lemma CollectionsDistinct(s: SchemaSnapshot)
    requires NoDuplicates(KeysOf(Entries(s)))
    ensures NoDuplicates(MapSeq(SchemaKey, s.schemas)) && NoDuplicates(MapSeq(TableKey, s.tables))
    ensures NoDuplicates(MapSeq(ColumnKey, s.columns)) && NoDuplicates(MapSeq(ConstraintKey, s.constraints))
    ensures NoDuplicates(MapSeq(IndexKey, s.indexes)) && NoDuplicates(MapSeq(ViewKey, s.views))
    ensures NoDuplicates(MapSeq(TriggerKey, s.triggers)) && NoDuplicates(MapSeq(RoutineKey, s.routines))
  {
    NinePieces([Entry(s.database.key, Database)], SchemaEntries(s.schemas), TableEntries(s.tables),
               ColumnEntries(s.columns),
               ConstraintEntries(s.constraints), IndexEntries(s.indexes), ViewEntries(s.views),
               TriggerEntries(s.triggers), RoutineEntries(s.routines));
    MarksAreKeys(s.schemas, SchemaKey, SchemaEntries(s.schemas));
    MarksAreKeys(s.tables, TableKey, TableEntries(s.tables));
    MarksAreKeys(s.columns, ColumnKey, ColumnEntries(s.columns));
    MarksAreKeys(s.constraints, ConstraintKey, ConstraintEntries(s.constraints));
    MarksAreKeys(s.indexes, IndexKey, IndexEntries(s.indexes));
    MarksAreKeys(s.views, ViewKey, ViewEntries(s.views));
    MarksAreKeys(s.triggers, TriggerKey, TriggerEntries(s.triggers));
    MarksAreKeys(s.routines, RoutineKey, RoutineEntries(s.routines));
  }

  lemma FirstStages(s: SchemaSnapshot)
    requires NoDuplicates(KeysOf(Entries(s)))
    ensures Staged(FlatMap(s.schemas, SchemaEdges), 0, 1) && Staged(FlatMap(s.tables, TableEdges), 1, 2)
    ensures Staged(FlatMap(s.columns, ColumnEdges), 2, 3) && Staged(FlatMap(s.triggers, TriggerEdges), 6, 7)
  {
    CollectionsDistinct(s);
    StageOf(s.schemas, SchemaEdges, SchemaKey, 0);
    StageOf(s.tables, TableEdges, TableKey, 1);
    StageOf(s.columns, ColumnEdges, ColumnKey, 2);
    TriggerStage(s.triggers);
  }

  lemma TriggerStage(triggers: seq<TriggerObject>)
    requires NoDuplicates(MapSeq(TriggerKey, triggers))
    ensures Staged(FlatMap(triggers, TriggerEdges), 6, 7)
  {
    forall t | t in triggers ensures OfObject(TriggerEdges(t), t.key, 6) { TriggerDistinct(t); }
    StageOf(triggers, TriggerEdges, TriggerKey, 6);
  }

  /** A trigger's two or three edges differ in kind. */
  lemma TriggerDistinct(t: TriggerObject)
    ensures OfObject(TriggerEdges(t), t.key, 6)
  {
  }

  lemma ListStages(s: SchemaSnapshot, known: set<ObjectKey>)
    requires NoDuplicates(KeysOf(Entries(s))) && ObjectsOk(s, known)
    ensures Staged(FlatMap(s.constraints, ConstraintEdges), 3, 4) && Staged(FlatMap(s.indexes, IndexEdges), 4, 5)
    ensures Staged(FlatMap(s.views, ViewEdges), 5, 6) && Staged(FlatMap(s.routines, RoutineEdges), 7, 8)
  {
    CollectionsDistinct(s);
    forall c | c in s.constraints ensures OfObject(ConstraintEdges(c), c.key, 3) {
      assert ConstraintOk(known, s.connectionAlias, c);
      ConstraintDistinct(c);
    }
    StageOf(s.constraints, ConstraintEdges, ConstraintKey, 3);
    forall i | i in s.indexes ensures OfObject(IndexEdges(i), i.key, 4) { IndexDistinct(i); }
    StageOf(s.indexes, IndexEdges, IndexKey, 4);
    forall v | v in s.views ensures OfObject(ViewEdges(v), v.key, 5) { ViewDistinct(v); }
    StageOf(s.views, ViewEdges, ViewKey, 5);
    forall r | r in s.routines ensures OfObject(RoutineEdges(r), r.key, 7) { RoutineDistinct(r); }
    StageOf(s.routines, RoutineEdges, RoutineKey, 7);
  }

  lemma EightStages(a: seq<PlannedEdge>, b: seq<PlannedEdge>, c: seq<PlannedEdge>, d: seq<PlannedEdge>,
                    e: seq<PlannedEdge>,
                    f: seq<PlannedEdge>, g: seq<PlannedEdge>, h: seq<PlannedEdge>)
    requires Staged(a, 0, 1) && Staged(b, 1, 2) && Staged(c, 2, 3) && Staged(d, 3, 4)
    requires Staged(e, 4, 5) && Staged(f, 5, 6) && Staged(g, 6, 7) && Staged(h, 7, 8)
    ensures Staged(a + b + c + d + e + f + g + h, 0, 8)
  {
    StagedJoined(a, b, 0, 1, 2);
    StagedJoined(a + b, c, 0, 2, 3);
    StagedJoined(a + b + c, d, 0, 3, 4);
    StagedJoined(a + b + c + d, e, 0, 4, 5);
    StagedJoined(a + b + c + d + e, f, 0, 5, 6);
    StagedJoined(a + b + c + d + e + f, g, 0, 6, 7);
    StagedJoined(a + b + c + d + e + f + g, h, 0, 7, 8);
  }

  lemma TypedStages(s: SchemaSnapshot)
    requires WellFormed(s)
    ensures Staged(TypedEdges(s), 0, 8)
  {
    FirstStages(s);
    ListStages(s, KnownKeys(Entries(s)));
    EightStages(FlatMap(s.schemas, SchemaEdges), FlatMap(s.tables, TableEdges), FlatMap(s.columns, ColumnEdges),
                FlatMap(s.constraints, ConstraintEdges), FlatMap(s.indexes, IndexEdges), FlatMap(s.views, ViewEdges),
                FlatMap(s.triggers, TriggerEdges), FlatMap(s.routines, RoutineEdges));
  }

  lemma ParentStage(x: CanonicalSchemaSnapshot)
    requires NoDuplicates(KeysOf(AllEntries(x)))
    ensures Staged(FlatMap(x.metadata.objects, ParentEdges), 8, 9)
  {
    SplitDistinct(Entries(x.schema), MetadataEntries(x.metadata.objects));
    MarksAreKeys(x.metadata.objects, MetadataKey, MetadataEntries(x.metadata.objects));
    StageOf(x.metadata.objects, ParentEdges, MetadataKey, 8);
  }

  lemma RelatedDistinct(relationships: seq<MetadataRelationship>)
    requires NoDuplicates(Identities(relationships))
    ensures NoDuplicates(MapSeq(IdentityOf, MapSeq(RelationshipEdge, relationships)))
  {
    var edges := MapSeq(RelationshipEdge, relationships);
    forall i, j | 0 <= i < j < |edges| ensures IdentityOf(edges[i]) != IdentityOf(edges[j]) {
      assert Identities(relationships)[i] != Identities(relationships)[j];
      assert edges[i] == RelationshipEdge(relationships[i]) && edges[j] == RelationshipEdge(relationships[j]);
    }
  }

  lemma InOrderDistinct(x: CanonicalSchemaSnapshot)
    requires CanonicalWellFormed(x)
    ensures NoDuplicates(MapSeq(IdentityOf, EdgesInOrder(x)))
  {
    TypedStages(x.schema);
    ParentStage(x);
    RelatedDistinct(x.metadata.relationships);
    ThreeParts(TypedEdges(x.schema), FlatMap(x.metadata.objects, ParentEdges),
               MapSeq(RelationshipEdge, x.metadata.relationships));
  }

  lemma ThreeParts(typed: seq<PlannedEdge>, parents: seq<PlannedEdge>, related: seq<PlannedEdge>)
    requires Staged(typed, 0, 8) && Staged(parents, 8, 9) && NoDuplicates(MapSeq(IdentityOf, related))
    requires forall e :: e in related ==> e.relationship.Some?
    ensures NoDuplicates(MapSeq(IdentityOf, typed + (parents + related)))
  {
    StagedJoined(typed, parents, 0, 8, 9);
    PlainAndRelated(typed + parents, related);
    assert typed + (parents + related) == typed + parents + related;
  }

  lemma PlainAndRelated(plain: seq<PlannedEdge>, related: seq<PlannedEdge>)
    requires Staged(plain, 0, 9) && NoDuplicates(MapSeq(IdentityOf, related))
             && forall e :: e in related ==> e.relationship.Some?
    ensures NoDuplicates(MapSeq(IdentityOf, plain + related))
  {
    assert MapSeq(IdentityOf, plain) == plain;
    MapSeqJoined(IdentityOf, plain, related);
    var ids := MapSeq(IdentityOf, related);
    forall i | 0 <= i < |ids| ensures ids[i].relationship.Some? {
      assert related[i] in related && ids[i] == IdentityOf(related[i]);
    }
    JoinedDistinct(plain, ids);
  }

  /** No two edges planned for a well-formed snapshot agree in kind, ends and ordinal. */
  lemma EdgePlanDistinct(s: CanonicalSchemaSnapshot)
    requires CanonicalWellFormed(s)
    ensures NoDuplicates(MapSeq(IdentityOf, EdgePlan(s)))
  {
    hide CanonicalWellFormed;
    InKeyOrderReorders(s);
    CanonicalWellFormedReordered(InKeyOrder(s), s);
    InOrderDistinct(InKeyOrder(s));
  }
}
