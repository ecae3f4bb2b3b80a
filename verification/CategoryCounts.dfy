/** The discovered numbers of a verified certificate, category by category, against the edges that are planned
    for its snapshot (certification.rs, graph_builder.rs). */
module CategoryCounts {
  import opened Wrappers
  import opened Lists
  import opened Ordering
  import opened ObjectKeys
  import opened SchemaModel
  import opened SnapshotRules
  import opened CanonicalRules
  import opened Canonical
  import opened Certification
  import opened CertificationCompleteness
  import opened Projection
  import opened ProjectionCounts
  import opened GraphBuilder

  /** The category an edge is evidence of. A foreign-key pair and a trigger's target are written as two edges,
      of which one counts. */
  function CategoryOf(kind: EdgeKind): Option<RelationshipCategory> {
    match kind
    case HasSchema => Some(DatabaseHasSchema)
    case HasTable => Some(SchemaHasTable)
    case HasColumn => Some(TableHasColumn)
    case HasConstraint => Some(TableHasConstraint)
    case InPrimaryKey => Some(ConstraintColumn)
    case InUnique => Some(ConstraintColumn)
    case InCheck => Some(ConstraintColumn)
    case FromColumn => Some(ForeignKeyColumnPair)
    case ToColumn => None
    case HasIndex => Some(TableHasIndex)
    case InIndex => Some(IndexColumn)
    case HasView => Some(SchemaHasView)
    case ViewOnTable => Some(ViewDependency)
    case ViewOnColumn => Some(ViewDependency)
    case ViewOnView => Some(ViewDependency)
    case TriggerOnTable => Some(TriggerTarget)
    case TriggerOnView => Some(TriggerTarget)
    case TableHasTrigger => None
    case ViewHasTrigger => None
    case Executes => Some(TriggerRoutine)
    case HasRoutine => Some(SchemaHasRoutine)
    case RoutineOnTable => Some(RoutineDependency)
    case RoutineOnColumn => Some(RoutineDependency)
    case ParentOf => Some(MetadataParent)
    case Related(_) => Some(MetadataRelation)
  }

  /** How many edges of a list are of a category. */
  function Tally(edges: seq<PlannedEdge>, c: RelationshipCategory): nat {
    if edges == [] then 0 else (if CategoryOf(edges[0].kind) == Some(c) then 1 else 0) + Tally(edges[1..], c)
  }

  /** How many dependencies of a category no edge is planned for. */
  function SkippedIn(s: SchemaSnapshot, c: RelationshipCategory): nat {
    match c
    case ViewDependency => SumOf(s.views, SkippedOfView)
    case RoutineDependency => SumOf(s.routines, SkippedOfRoutine)
    case _ => 0
  }

  // ------------------------------------------------------------------ tallies

  lemma {:induction false} TallyJoined(a: seq<PlannedEdge>, b: seq<PlannedEdge>, c: RelationshipCategory)
    ensures Tally(a + b, c) == Tally(a, c) + Tally(b, c)
  {
    if a == [] {
      assert a + b == b;
    } else {
      assert (a + b)[1..] == a[1..] + b;
      TallyJoined(a[1..], b, c);
    }
  }

  lemma {:induction false} TallyUniform(edges: seq<PlannedEdge>, category: Option<RelationshipCategory>,
                                        c: RelationshipCategory)
    requires forall e :: e in edges ==> CategoryOf(e.kind) == category
    ensures Tally(edges, c) == if category == Some(c) then |edges| else 0
  {
    if edges != [] { TallyUniform(edges[1..], category, c); }
  }

  lemma {:induction false} TallyFlat<T>(items: seq<T>, f: T -> seq<PlannedEdge>, size: T -> nat,
                                        c: RelationshipCategory)
    requires forall x :: x in items ==> Tally(f(x), c) == size(x)
    ensures Tally(FlatMap(items, f), c) == SumOf(items, size)
  {
    if items != [] {
      TallyFlat(items[1..], f, size, c);
      TallyJoined(f(items[0]), FlatMap(items[1..], f), c);
    }
  }

  lemma TallyOne(e: PlannedEdge, c: RelationshipCategory)
    ensures Tally([e], c) == if CategoryOf(e.kind) == Some(c) then 1 else 0
  {
  }

  lemma TallyKeys(kind: EdgeKind, keys: seq<ObjectKey>, key: ObjectKey, c: RelationshipCategory)
    ensures Tally(EdgesInto(kind, keys, key), c) == if CategoryOf(kind) == Some(c) then |keys| else 0
    ensures Tally(EdgesOutOf(kind, key, keys), c) == if CategoryOf(kind) == Some(c) then |keys| else 0
  {
    IntoCount(kind, keys, key);
    TallyUniform(EdgesInto(kind, keys, key), CategoryOf(kind), c);
    TallyUniform(EdgesOutOf(kind, key, keys), CategoryOf(kind), c);
  }

  // --------------------------------------------------------------- per object

  function OneIf(b: bool): nat { if b then 1 else 0 }

  function ConstraintShare(o: ConstraintObject, c: RelationshipCategory): nat {
    match c
    case TableHasConstraint => 1
    case ConstraintColumn => OtherColumns(o)
    case ForeignKeyColumnPair => ForeignKeyColumns(o)
    case _ => 0
  }

  lemma ConstraintTally(o: ConstraintObject, c: RelationshipCategory)
    ensures Tally(ConstraintEdges(o), c) == ConstraintShare(o, c)
  {
    hide Tally, EdgesInto, EdgesOutOf;
    TallyJoined([Plain(HasConstraint, o.tableKey, o.key)], ConstraintColumnEdges(o), c);
    TallyOne(Plain(HasConstraint, o.tableKey, o.key), c);
    TallyKeys(InPrimaryKey, o.columns, o.key, c);
    TallyKeys(InUnique, o.columns, o.key, c);
    TallyKeys(InCheck, o.columns, o.key, c);
    TallyKeys(FromColumn, o.columns, o.key, c);
    TallyKeys(ToColumn, o.referencedColumns, o.key, c);
    TallyJoined(EdgesInto(FromColumn, o.columns, o.key), EdgesOutOf(ToColumn, o.key, o.referencedColumns), c);
  }

  function IndexShare(o: IndexObject, c: RelationshipCategory): nat {
    match c case TableHasIndex => 1 case IndexColumn => IndexWidth(o) case _ => 0
  }

  lemma IndexTally(o: IndexObject, c: RelationshipCategory)
    ensures Tally(IndexEdges(o), c) == IndexShare(o, c)
  {
    hide Tally, EdgesInto;
    TallyJoined([Plain(HasIndex, o.tableKey, o.key)], EdgesInto(InIndex, o.columns, o.key), c);
    TallyOne(Plain(HasIndex, o.tableKey, o.key), c);
    TallyKeys(InIndex, o.columns, o.key, c);
  }

  /** Of a list of dependencies those that are not skipped are tallied, under one category. */
  lemma {:induction false} DependencyTally(keys: seq<ObjectKey>, f: ObjectKey -> seq<PlannedEdge>,
                                           skip: ObjectKey -> nat, category: RelationshipCategory,
                                           c: RelationshipCategory)
    requires forall d :: |f(d)| + skip(d) == 1 && forall e :: e in f(d) ==> CategoryOf(e.kind) == Some(category)
    ensures if c == category then Tally(FlatMap(keys, f), c) + SumOf(keys, skip) == |keys|
            else Tally(FlatMap(keys, f), c) == 0
  {
    if keys != [] {
      DependencyTally(keys[1..], f, skip, category, c);
      TallyJoined(f(keys[0]), FlatMap(keys[1..], f), c);
      TallyUniform(f(keys[0]), Some(category), c);
    }
  }

  lemma OwnTally(owner: ObjectKey, key: ObjectKey, kind: EdgeKind, c: RelationshipCategory)
    requires kind == HasView || kind == HasRoutine
    ensures Tally([Plain(kind, owner, key)], c)
         == if c == (if kind == HasView then SchemaHasView else SchemaHasRoutine) then 1 else 0
  {
    TallyOne(Plain(kind, owner, key), c);
  }

  function ViewShare(o: ViewObject, c: RelationshipCategory): int {
    match c case SchemaHasView => 1 case ViewDependency => ViewWidth(o) - SkippedOfView(o) case _ => 0
  }

  lemma ViewDependenciesCount(view: ObjectKey)
    ensures forall d :: |ViewDependencyEdges(view, d)| + SkippedForView(d) == 1
    ensures forall d, e :: e in ViewDependencyEdges(view, d) ==> CategoryOf(e.kind) == Some(ViewDependency)
  {
  }

  lemma ViewTally(o: ViewObject, c: RelationshipCategory)
    ensures Tally(ViewEdges(o), c) == ViewShare(o, c)
  {
    hide Tally, FlatMap, SumOf, StableSort, ViewDependencyEdges, SkippedForView, CategoryOf;
    var sorted := StableSort(o.dependsOn, ByKey);
    StableSortKeeps(o.dependsOn, ByKey);
    assert |multiset(sorted)| == |multiset(o.dependsOn)|;
    TallyJoined([Plain(HasView, o.schemaKey, o.key)], FlatMap(sorted, d => ViewDependencyEdges(o.key, d)), c);
    OwnTally(o.schemaKey, o.key, HasView, c);
    ViewDependenciesCount(o.key);
    DependencyTally(sorted, d => ViewDependencyEdges(o.key, d), SkippedForView, ViewDependency, c);
    SumOfPermuted(o.dependsOn, sorted, SkippedForView);
  }

  function RoutineShare(o: RoutineObject, c: RelationshipCategory): int {
    match c case SchemaHasRoutine => 1 case RoutineDependency => RoutineWidth(o) - SkippedOfRoutine(o) case _ => 0
  }

  lemma RoutineDependenciesCount(routine: ObjectKey)
    ensures forall d :: |RoutineDependencyEdges(routine, d)| + SkippedForRoutine(d) == 1
    ensures forall d, e :: e in RoutineDependencyEdges(routine, d) ==> CategoryOf(e.kind) == Some(RoutineDependency)
  {
  }

  lemma RoutineTally(o: RoutineObject, c: RelationshipCategory)
    ensures Tally(RoutineEdges(o), c) == RoutineShare(o, c)
  {
    hide Tally, FlatMap, SumOf, StableSort, RoutineDependencyEdges, SkippedForRoutine, CategoryOf;
    var sorted := StableSort(o.dependsOn, ByKey);
    StableSortKeeps(o.dependsOn, ByKey);
    assert |multiset(sorted)| == |multiset(o.dependsOn)|;
    TallyJoined([Plain(HasRoutine, o.schemaKey, o.key)], FlatMap(sorted, d => RoutineDependencyEdges(o.key, d)), c);
    OwnTally(o.schemaKey, o.key, HasRoutine, c);
    RoutineDependenciesCount(o.key);
    DependencyTally(sorted, d => RoutineDependencyEdges(o.key, d), SkippedForRoutine, RoutineDependency, c);
    SumOfPermuted(o.dependsOn, sorted, SkippedForRoutine);
  }

  function TriggerShare(o: TriggerObject, c: RelationshipCategory): nat {
    match c case TriggerTarget => 1 case TriggerRoutine => RunsRoutine(o) case _ => 0
  }

  lemma TallyTwo(a: PlannedEdge, b: PlannedEdge, c: RelationshipCategory)
    ensures Tally([a, b], c) == OneIf(CategoryOf(a.kind) == Some(c)) + OneIf(CategoryOf(b.kind) == Some(c))
  {
    assert [a, b] == [a] + [b];
    TallyJoined([a], [b], c);
    TallyOne(a, c);
    TallyOne(b, c);
  }

  lemma RunsTally(o: TriggerObject, runs: seq<PlannedEdge>, c: RelationshipCategory)
    requires runs == match o.executesRoutineKey case Some(routine) => [Plain(Executes, o.key, routine)] case None => []
    ensures Tally(runs, c) == if c == TriggerRoutine then RunsRoutine(o) else 0
  {
    if o.executesRoutineKey.Some? { TallyOne(Plain(Executes, o.key, o.executesRoutineKey.value), c); }
  }

  lemma TriggerTally(o: TriggerObject, c: RelationshipCategory)
    ensures Tally(TriggerEdges(o), c) == TriggerShare(o, c)
  {
    hide Tally;
    var runs := match o.executesRoutineKey case Some(routine) => [Plain(Executes, o.key, routine)] case None => [];
    RunsTally(o, runs, c);
    if o.tableKey.objectKind == View {
      TallyTwo(Plain(ViewHasTrigger, o.tableKey, o.key), Plain(TriggerOnView, o.key, o.tableKey), c);
      TallyJoined([Plain(ViewHasTrigger, o.tableKey, o.key), Plain(TriggerOnView, o.key, o.tableKey)], runs, c);
    } else {
      TallyTwo(Plain(TableHasTrigger, o.tableKey, o.key), Plain(TriggerOnTable, o.key, o.tableKey), c);
      TallyJoined([Plain(TableHasTrigger, o.tableKey, o.key), Plain(TriggerOnTable, o.key, o.tableKey)], runs, c);
    }
  }

  // ----------------------------------------------------------- per collection

  lemma OwnersTally(s: SchemaSnapshot, c: RelationshipCategory)
    ensures Tally(FlatMap(s.schemas, SchemaEdges), c) == OneIf(c == DatabaseHasSchema) * |s.schemas|
    ensures Tally(FlatMap(s.tables, TableEdges), c) == OneIf(c == SchemaHasTable) * |s.tables|
    ensures Tally(FlatMap(s.columns, ColumnEdges), c) == OneIf(c == TableHasColumn) * |s.columns|
  {
    hide Tally, FlatMap;
    OwnerTally(s.schemas, SchemaEdges, DatabaseHasSchema, c);
    OwnerTally(s.tables, TableEdges, SchemaHasTable, c);
    OwnerTally(s.columns, ColumnEdges, TableHasColumn, c);
  }

  lemma OwnerTally<T>(items: seq<T>, f: T -> seq<PlannedEdge>, category: RelationshipCategory, c: RelationshipCategory)
    requires forall x :: |f(x)| == 1 && CategoryOf(f(x)[0].kind) == Some(category)
    ensures Tally(FlatMap(items, f), c) == OneIf(c == category) * |items|
  {
    SingleEdges(items, f);
    forall e | e in FlatMap(items, f) ensures CategoryOf(e.kind) == Some(category) {
      var x := FlatMapFrom(items, f, e);
    }
    TallyUniform(FlatMap(items, f), Some(category), c);
  }

  function One<T>(x: T): nat { 1 }

  function Zero<T>(x: T): nat { 0 }

  lemma ConstraintsTally(items: seq<ConstraintObject>, c: RelationshipCategory)
    ensures Tally(FlatMap(items, ConstraintEdges), c)
         == match c
            case TableHasConstraint => |items|
            case ConstraintColumn => SumOf(items, OtherColumns)
            case ForeignKeyColumnPair => SumOf(items, ForeignKeyColumns)
            case _ => 0
  {
    hide Tally, FlatMap, SumOf, ConstraintEdges;
    forall o | o in items ensures Tally(ConstraintEdges(o), c) == ConstraintShare(o, c) { ConstraintTally(o, c); }
    match c
    case ConstraintColumn => TallyFlat(items, ConstraintEdges, OtherColumns, c);
    case ForeignKeyColumnPair => TallyFlat(items, ConstraintEdges, ForeignKeyColumns, c);
    case TableHasConstraint =>
      TallyFlat(items, ConstraintEdges, One, c);
      SumOfOnes(items, One);
    case _ =>
      TallyFlat(items, ConstraintEdges, Zero, c);
      SumOfZero(items, Zero);
  }

  lemma IndexesTally(items: seq<IndexObject>, c: RelationshipCategory)
    ensures Tally(FlatMap(items, IndexEdges), c)
         == match c case TableHasIndex => |items| case IndexColumn => SumOf(items, IndexWidth) case _ => 0
  {
    hide Tally, FlatMap, SumOf, IndexEdges;
    forall o | o in items ensures Tally(IndexEdges(o), c) == IndexShare(o, c) { IndexTally(o, c); }
    match c
    case IndexColumn => TallyFlat(items, IndexEdges, IndexWidth, c);
    case TableHasIndex =>
      TallyFlat(items, IndexEdges, One, c);
      SumOfOnes(items, One);
    case _ =>
      TallyFlat(items, IndexEdges, Zero, c);
      SumOfZero(items, Zero);
  }

  lemma TriggersTally(items: seq<TriggerObject>, c: RelationshipCategory)
    ensures Tally(FlatMap(items, TriggerEdges), c)
         == match c case TriggerTarget => |items| case TriggerRoutine => SumOf(items, RunsRoutine) case _ => 0
  {
    hide Tally, FlatMap, SumOf, TriggerEdges;
    forall o | o in items ensures Tally(TriggerEdges(o), c) == TriggerShare(o, c) { TriggerTally(o, c); }
    match c
    case TriggerRoutine => TallyFlat(items, TriggerEdges, RunsRoutine, c);
    case TriggerTarget =>
      TallyFlat(items, TriggerEdges, One, c);
      SumOfOnes(items, One);
    case _ =>
      TallyFlat(items, TriggerEdges, Zero, c);
      SumOfZero(items, Zero);
  }

  /** What is tallied and what is skipped make up the whole. */
  lemma {:induction false} TallyPaired<T>(items: seq<T>, f: T -> seq<PlannedEdge>, skip: T -> nat, width: T -> nat,
                                          c: RelationshipCategory)
    requires forall x :: x in items ==> Tally(f(x), c) + skip(x) == width(x)
    ensures Tally(FlatMap(items, f), c) + SumOf(items, skip) == SumOf(items, width)
  {
    if items != [] {
      TallyPaired(items[1..], f, skip, width, c);
      TallyJoined(f(items[0]), FlatMap(items[1..], f), c);
    }
  }

  lemma ViewsTally(items: seq<ViewObject>, c: RelationshipCategory)
    ensures Tally(FlatMap(items, ViewEdges), c) + (if c == ViewDependency then SumOf(items, SkippedOfView) else 0)
         == match c case SchemaHasView => |items| case ViewDependency => SumOf(items, ViewWidth) case _ => 0
  {
    hide Tally, FlatMap, SumOf, ViewEdges, SkippedOfView;
    forall o | o in items ensures Tally(ViewEdges(o), c) == ViewShare(o, c) { ViewTally(o, c); }
    match c
    case ViewDependency => TallyPaired(items, ViewEdges, SkippedOfView, ViewWidth, c);
    case SchemaHasView =>
      TallyFlat(items, ViewEdges, One, c);
      SumOfOnes(items, One);
    case _ =>
      TallyFlat(items, ViewEdges, Zero, c);
      SumOfZero(items, Zero);
  }

  lemma RoutinesTally(items: seq<RoutineObject>, c: RelationshipCategory)
    ensures Tally(FlatMap(items, RoutineEdges), c)
            + (if c == RoutineDependency then SumOf(items, SkippedOfRoutine) else 0)
         == match c case SchemaHasRoutine => |items| case RoutineDependency => SumOf(items, RoutineWidth) case _ => 0
  {
    hide Tally, FlatMap, SumOf, RoutineEdges, SkippedOfRoutine;
    forall o | o in items ensures Tally(RoutineEdges(o), c) == RoutineShare(o, c) { RoutineTally(o, c); }
    match c
    case RoutineDependency => TallyPaired(items, RoutineEdges, SkippedOfRoutine, RoutineWidth, c);
    case SchemaHasRoutine =>
      TallyFlat(items, RoutineEdges, One, c);
      SumOfOnes(items, One);
    case _ =>
      TallyFlat(items, RoutineEdges, Zero, c);
      SumOfZero(items, Zero);
  }

  lemma ParentTally(o: MetadataObject, c: RelationshipCategory)
    ensures Tally(ParentEdges(o), c) == if c == MetadataParent then HasParent(o) else 0
  {
    if o.parentKey.Some? { TallyOne(Plain(ParentOf, o.parentKey.value, o.key), c); }
  }

  lemma MetadataTally(m: CanonicalMetadata, c: RelationshipCategory)
    ensures Tally(MetadataEdges(m), c)
         == match c
            case MetadataParent => SumOf(m.objects, HasParent)
            case MetadataRelation => |m.relationships|
            case _ => 0
  {
    hide Tally, FlatMap, SumOf, ParentEdges;
    var parents, related := FlatMap(m.objects, ParentEdges), MapSeq(RelationshipEdge, m.relationships);
    forall o | o in m.objects ensures Tally(ParentEdges(o), c) == if c == MetadataParent then HasParent(o) else 0 {
      ParentTally(o, c);
    }
    TallyJoined(parents, related, c);
    RelatedTally(m.relationships, c);
    if c == MetadataParent {
      TallyFlat(m.objects, ParentEdges, HasParent, c);
    } else {
      TallyFlat(m.objects, ParentEdges, Zero, c);
      SumOfZero(m.objects, Zero);
    }
  }

  lemma RelatedTally(relationships: seq<MetadataRelationship>, c: RelationshipCategory)
    ensures Tally(MapSeq(RelationshipEdge, relationships), c)
         == if c == MetadataRelation then |relationships| else 0
  {
    var related := MapSeq(RelationshipEdge, relationships);
    forall e | e in related ensures CategoryOf(e.kind) == Some(MetadataRelation) {
      var i :| 0 <= i < |related| && related[i] == e;
      assert e == RelationshipEdge(relationships[i]);
    }
    TallyUniform(related, Some(MetadataRelation), c);
  }

  // -------------------------------------------------------------- the whole

  lemma EightJoined(a: seq<PlannedEdge>, b: seq<PlannedEdge>, d: seq<PlannedEdge>, e: seq<PlannedEdge>,
                    f: seq<PlannedEdge>, g: seq<PlannedEdge>, h: seq<PlannedEdge>, i: seq<PlannedEdge>,
                    c: RelationshipCategory)
    ensures Tally(a + b + d + e + f + g + h + i, c)
         == Tally(a, c) + Tally(b, c) + Tally(d, c) + Tally(e, c) + Tally(f, c) + Tally(g, c) + Tally(h, c)
             + Tally(i, c)
  {
    TallyJoined(a, b, c);
    TallyJoined(a + b, d, c);
    TallyJoined(a + b + d, e, c);
    TallyJoined(a + b + d + e, f, c);
    TallyJoined(a + b + d + e + f, g, c);
    TallyJoined(a + b + d + e + f + g, h, c);
    TallyJoined(a + b + d + e + f + g + h, i, c);
  }

  lemma InOrderTally(x: CanonicalSchemaSnapshot, c: RelationshipCategory)
    ensures Tally(EdgesInOrder(x), c) + SkippedIn(x.schema, c) == EmittedRelations(x, c)
  {
    hide Tally, FlatMap, SumOf, MetadataEdges;
    var s := x.schema;
    TallyJoined(TypedEdges(s), MetadataEdges(x.metadata), c);
    EightJoined(FlatMap(s.schemas, SchemaEdges), FlatMap(s.tables, TableEdges), FlatMap(s.columns, ColumnEdges),
                FlatMap(s.constraints, ConstraintEdges), FlatMap(s.indexes, IndexEdges), FlatMap(s.views, ViewEdges),
                FlatMap(s.triggers, TriggerEdges), FlatMap(s.routines, RoutineEdges), c);
    OwnersTally(s, c);
    ConstraintsTally(s.constraints, c);
    IndexesTally(s.indexes, c);
    ViewsTally(s.views, c);
    TriggersTally(s.triggers, c);
    RoutinesTally(s.routines, c);
    MetadataTally(x.metadata, c);
  }

  lemma CountsReordered(x: CanonicalSchemaSnapshot, s: CanonicalSchemaSnapshot, c: RelationshipCategory)
    requires CanonicalReordered(x, s)
    ensures EmittedRelations(x, c) == EmittedRelations(s, c) && SkippedIn(x.schema, c) == SkippedIn(s.schema, c)
  {
    hide SumOf;
    var a, b := x.schema, s.schema;
    SameLength(a.schemas, b.schemas);
    SameLength(a.tables, b.tables);
    SameLength(a.columns, b.columns);
    SameLength(a.constraints, b.constraints);
    SameLength(a.indexes, b.indexes);
    SameLength(a.views, b.views);
    SameLength(a.triggers, b.triggers);
    SameLength(a.routines, b.routines);
    SumOfPermuted(a.constraints, b.constraints, OtherColumns);
    SumOfPermuted(a.constraints, b.constraints, ForeignKeyColumns);
    SumOfPermuted(a.indexes, b.indexes, IndexWidth);
    SumOfPermuted(a.views, b.views, ViewWidth);
    SumOfPermuted(a.triggers, b.triggers, RunsRoutine);
    SumOfPermuted(a.routines, b.routines, RoutineWidth);
    SumOfPermuted(a.views, b.views, SkippedOfView);
    SumOfPermuted(a.routines, b.routines, SkippedOfRoutine);
    SameLength(x.metadata.relationships, s.metadata.relationships);
    SumOfPermuted(x.metadata.objects, s.metadata.objects, HasParent);
  }

  /** Category by category: the planned edges and the skipped dependencies of a snapshot are what it emits. */
  lemma EdgePlanByCategory(s: CanonicalSchemaSnapshot, c: RelationshipCategory)
    ensures Tally(EdgePlan(s), c) + SkippedIn(s.schema, c) == EmittedRelations(s, c)
  {
    hide EmittedRelations, SkippedIn, Tally, CanonicalReordered;
    InKeyOrderReorders(s);
    InOrderTally(InKeyOrder(s), c);
    CountsReordered(InKeyOrder(s), s, c);
  }

  /** In a verified certificate the discovered number of a category is the number of planned edges of its kinds
      and of the dependencies skipped there; each category is listed once. */
  lemma VerifiedByCategory(certified: CertifiedSchemaSnapshot, c: RelationshipCategory)
    requires Verified(certified)
    ensures exists i :: 0 <= i < |certified.completeness.relationshipCounts|
                        && certified.completeness.relationshipCounts[i].category == c
    ensures forall r :: r in certified.completeness.relationshipCounts && r.category == c ==>
              r.discovered == Tally(EdgePlan(certified.snapshot), c) + SkippedIn(certified.snapshot.schema, c)
  {
    hide EmittedRelations, SkippedIn, Tally, EdgePlan, CanonicalWellFormed, Normalize;
    EdgePlanByCategory(certified.snapshot, c);
    RelationsListedOnce();
    ListedOnce(certified.completeness.relationshipCounts, c);
  }

  lemma ListedOnce(counts: seq<CountReconciliation<RelationshipCategory>>, c: RelationshipCategory)
    requires c in Categories(counts)
    ensures exists i :: 0 <= i < |counts| && counts[i].category == c
  {
    var i :| 0 <= i < |Categories(counts)| && Categories(counts)[i] == c;
    assert counts[i].category == c;
  }

  // ------------------------------------------------------------- the objects

  /** The objects of a kind. */
  ghost function OfKind(s: CanonicalSchemaSnapshot, kind: ObjectKind): set<ObjectKey> {
    set k | k in KnownKeys(AllEntries(s)) && k.objectKind == kind
  }

  lemma {:induction false} KindCount(entries: seq<Entry>, kind: ObjectKind, keys: set<ObjectKey>)
    requires NoDuplicates(KeysOf(entries)) && forall e :: e in entries ==> e.key.objectKind == e.kind
    requires forall k :: k in keys <==> k in KeysOf(entries) && k.objectKind == kind
    ensures CountKind(entries, kind) == |keys|
    decreases |entries|
  {
    if entries == [] {
      assert keys == {};
    } else {
      var rest := entries[1..];
      var listed := KeysOf(entries);
      assert KeysOf(rest) == listed[1..] && listed == [entries[0].key] + listed[1..];
      forall i | 0 <= i < |listed[1..]| ensures listed[1..][i] != entries[0].key {
        assert listed[1..][i] == listed[i + 1] && listed[0] == entries[0].key;
      }
      KindCount(rest, kind, keys - {entries[0].key});
    }
  }

  lemma EntriesFit(s: CanonicalSchemaSnapshot)
    requires CanonicalWellFormed(s)
    ensures NoDuplicates(KeysOf(AllEntries(s))) && forall e :: e in AllEntries(s) ==> e.key.objectKind == e.kind
  {
    hide NoDuplicates, ObjectsOk, MetadataOk, InScope, Entries, Ordinals;
  }

  /** The objects a snapshot emits of a kind are its objects with a key of that kind. */
  lemma EmittedByKind(s: CanonicalSchemaSnapshot, kind: ObjectKind)
    requires CanonicalWellFormed(s)
    ensures EmittedObjects(s, kind) == |OfKind(s, kind)|
  {
    hide CanonicalWellFormed, AllEntries, NoDuplicates;
    EntriesFit(s);
    KnownAreKeys(AllEntries(s));
    KindCount(AllEntries(s), kind, OfKind(s, kind));
  }

  /** A discovery is honest exactly when it gives, with evidence, the number of objects of each kind and for
      each category the number of planned edges of its kinds and of dependencies skipped there. */
  lemma HonestMeans(discovered: DiscoveryCounts, s: CanonicalSchemaSnapshot)
    requires CanonicalWellFormed(s)
    ensures Honest(discovered, s) <==>
              && (forall k: ObjectKind :: k in discovered.objects
                    && CountIs(discovered.objects[k], |OfKind(s, k)|))
              && (forall c: RelationshipCategory :: c in discovered.relationships
                    && CountIs(discovered.relationships[c], Tally(EdgePlan(s), c) + SkippedIn(s.schema, c)))
  {
    hide EmittedRelations, EmittedObjects, SkippedIn, Tally, EdgePlan, OfKind, CountIs, CanonicalWellFormed;
    forall k: ObjectKind ensures EmittedObjects(s, k) == |OfKind(s, k)| { EmittedByKind(s, k); }
    forall c: RelationshipCategory
      ensures EmittedRelations(s, c) == Tally(EdgePlan(s), c) + SkippedIn(s.schema, c) { EdgePlanByCategory(s, c); }
  }
}
