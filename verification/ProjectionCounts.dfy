/** How many edges the graph builder plans: the semantic total, plus foreign-key pairs and trigger
    targets, less the dependencies it skips (graph_builder.rs, certification.rs). */
module ProjectionCounts {
  import opened Wrappers
  import opened Lists
  import opened Ordering
  import opened ObjectKeys
  import opened SchemaModel
  import opened SnapshotRules
  import opened CanonicalRules
  import opened Canonical
  import opened Certification
  import opened Projection

  /** Dependencies a view or routine names that the builder turns into no edge. */
  function SkippedForView(d: ObjectKey): nat { if d.objectKind in {Table, Column, View} then 0 else 1 }

  function SkippedForRoutine(d: ObjectKey): nat { if d.objectKind in {Table, Column} then 0 else 1 }

  function SkippedOfView(v: ViewObject): nat { SumOf(v.dependsOn, SkippedForView) }

  function SkippedOfRoutine(r: RoutineObject): nat { SumOf(r.dependsOn, SkippedForRoutine) }

  function Skipped(s: SchemaSnapshot): nat { SumOf(s.views, SkippedOfView) + SumOf(s.routines, SkippedOfRoutine) }

  /** The dependencies that become edges are exactly those of these kinds. */
  predicate NothingSkipped(s: SchemaSnapshot) {
    && (forall v, d :: v in s.views && d in v.dependsOn ==> d.objectKind in {Table, Column, View})
    && (forall r, d :: r in s.routines && d in r.dependsOn ==> d.objectKind in {Table, Column})
  }

  lemma {:induction false} SumIsZero<T>(items: seq<T>, f: T -> nat)
    ensures SumOf(items, f) == 0 <==> forall x :: x in items ==> f(x) == 0
  {
    if items != [] { SumIsZero(items[1..], f); }
  }

  lemma SkippedIsZero(s: SchemaSnapshot)
    ensures Skipped(s) == 0 <==> NothingSkipped(s)
  {
    SumIsZero(s.views, SkippedOfView);
    SumIsZero(s.routines, SkippedOfRoutine);
    forall v | v in s.views ensures SkippedOfView(v) == 0
        <==> forall d :: d in v.dependsOn ==> d.objectKind in {Table, Column, View} {
      SumIsZero(v.dependsOn, SkippedForView);
      assert forall d :: SkippedForView(d) == 0 <==> d.objectKind in {Table, Column, View};
    }
    forall r | r in s.routines ensures SkippedOfRoutine(r) == 0
        <==> forall d :: d in r.dependsOn ==> d.objectKind in {Table, Column} {
      SumIsZero(r.dependsOn, SkippedForRoutine);
      assert forall d :: SkippedForRoutine(d) == 0 <==> d.objectKind in {Table, Column};
    }
  }

  // ------------------------------------------------------------- per object

  function PairEdges(c: ConstraintObject): nat { ForeignKeyColumns(c) + ForeignKeyColumns(c) }

  /** Edges to the columns of one constraint: one per column, for foreign keys two per pair. */
  function ConstraintWidth(c: ConstraintObject): nat { OtherColumns(c) + PairEdges(c) }

  lemma IntoCount(kind: EdgeKind, keys: seq<ObjectKey>, key: ObjectKey)
    ensures |EdgesInto(kind, keys, key)| == |keys| == |EdgesOutOf(kind, key, keys)|
  {
    StableSortKeeps(keys, ByKey);
  }

  lemma ConstraintEdgesCount(c: ConstraintObject)
    requires c.kind == ForeignKeyRule ==> |c.columns| == |c.referencedColumns|
    ensures |ConstraintEdges(c)| == 1 + ConstraintWidth(c)
  {
    IntoCount(InPrimaryKey, c.columns, c.key);
    IntoCount(FromColumn, c.columns, c.key);
    IntoCount(ToColumn, c.referencedColumns, c.key);
    IntoCount(InUnique, c.columns, c.key);
    IntoCount(InCheck, c.columns, c.key);
  }

  /** The edges and the skipped of a dependency list make up the list. */
  lemma {:induction false} DependencyCount(keys: seq<ObjectKey>, f: ObjectKey -> seq<PlannedEdge>,
                                           skip: ObjectKey -> nat)
    requires forall d :: |f(d)| + skip(d) == 1
    ensures |FlatMap(keys, f)| + SumOf(keys, skip) == |keys|
  {
    if keys != [] { DependencyCount(keys[1..], f, skip); }
  }

  lemma ViewEdgesCount(v: ViewObject)
    ensures |ViewEdges(v)| + SkippedOfView(v) == 1 + ViewWidth(v)
  {
    StableSortKeeps(v.dependsOn, ByKey);
    DependencyCount(StableSort(v.dependsOn, ByKey), d => ViewDependencyEdges(v.key, d), SkippedForView);
    SumOfPermuted(v.dependsOn, StableSort(v.dependsOn, ByKey), SkippedForView);
  }

  lemma RoutineEdgesCount(r: RoutineObject)
    ensures |RoutineEdges(r)| + SkippedOfRoutine(r) == 1 + RoutineWidth(r)
  {
    StableSortKeeps(r.dependsOn, ByKey);
    DependencyCount(StableSort(r.dependsOn, ByKey), d => RoutineDependencyEdges(r.key, d), SkippedForRoutine);
    SumOfPermuted(r.dependsOn, StableSort(r.dependsOn, ByKey), SkippedForRoutine);
  }

  // ---------------------------------------------------------- per collection

  /** Edges per item plus what is skipped per item add up to one owner edge plus the item's width. */
  lemma {:induction false} DependentEdges<T>(items: seq<T>, f: T -> seq<PlannedEdge>, skip: T -> nat, width: T -> nat)
    requires forall x :: x in items ==> |f(x)| + skip(x) == 1 + width(x)
    ensures |FlatMap(items, f)| + SumOf(items, skip) == |items| + SumOf(items, width)
  {
    if items != [] { DependentEdges(items[1..], f, skip, width); }
  }

  lemma {:induction false} OwnedEdges<T>(items: seq<T>, f: T -> seq<PlannedEdge>, width: T -> nat)
    requires forall x :: x in items ==> |f(x)| == 1 + width(x)
    ensures |FlatMap(items, f)| == |items| + SumOf(items, width)
  {
    if items != [] { OwnedEdges(items[1..], f, width); }
  }

  lemma {:induction false} SingleEdges<T>(items: seq<T>, f: T -> seq<PlannedEdge>)
    requires forall x :: x in items ==> |f(x)| == 1
    ensures |FlatMap(items, f)| == |items|
  {
    if items != [] { SingleEdges(items[1..], f); }
  }

  lemma ConstraintsCount(constraints: seq<ConstraintObject>)
    requires forall c :: c in constraints && c.kind == ForeignKeyRule ==> |c.columns| == |c.referencedColumns|
    ensures |FlatMap(constraints, ConstraintEdges)|
         == |constraints| + SumOf(constraints, OtherColumns) + SumOf(constraints, ForeignKeyColumns)
             + SumOf(constraints, ForeignKeyColumns)
  {
    forall c | c in constraints ensures |ConstraintEdges(c)| == 1 + ConstraintWidth(c) { ConstraintEdgesCount(c); }
    OwnedEdges(constraints, ConstraintEdges, ConstraintWidth);
    SumOfAdds(constraints, ConstraintWidth, OtherColumns, PairEdges);
    SumOfAdds(constraints, PairEdges, ForeignKeyColumns, ForeignKeyColumns);
  }

  lemma IndexesCount(indexes: seq<IndexObject>)
    ensures |FlatMap(indexes, IndexEdges)| == |indexes| + SumOf(indexes, IndexWidth)
  {
    forall i | i in indexes ensures |IndexEdges(i)| == 1 + IndexWidth(i) { IntoCount(InIndex, i.columns, i.key); }
    OwnedEdges(indexes, IndexEdges, IndexWidth);
  }

  lemma ViewsCount(views: seq<ViewObject>)
    ensures |FlatMap(views, ViewEdges)| + SumOf(views, SkippedOfView) == |views| + SumOf(views, ViewWidth)
  {
    forall v | v in views ensures |ViewEdges(v)| + SkippedOfView(v) == 1 + ViewWidth(v) { ViewEdgesCount(v); }
    DependentEdges(views, ViewEdges, SkippedOfView, ViewWidth);
  }

  lemma TriggersCount(triggers: seq<TriggerObject>)
    ensures |FlatMap(triggers, TriggerEdges)| == |triggers| + |triggers| + SumOf(triggers, RunsRoutine)
  {
    var one := (t: TriggerObject) => 1;
    var width := (t: TriggerObject) => 1 + RunsRoutine(t);
    OwnedEdges(triggers, TriggerEdges, width);
    SumOfAdds(triggers, width, one, RunsRoutine);
    SumOfOnes(triggers, one);
  }

  lemma RoutinesCount(routines: seq<RoutineObject>)
    ensures |FlatMap(routines, RoutineEdges)| + SumOf(routines, SkippedOfRoutine) == |routines|
            + SumOf(routines, RoutineWidth)
  {
    forall r | r in routines ensures |RoutineEdges(r)| + SkippedOfRoutine(r) == 1 + RoutineWidth(r) {
      RoutineEdgesCount(r);
    }
    DependentEdges(routines, RoutineEdges, SkippedOfRoutine, RoutineWidth);
  }

  lemma MetadataCount(m: CanonicalMetadata)
    ensures |MetadataEdges(m)| == SumOf(m.objects, HasParent) + |m.relationships|
  {
    FlatMapCount(m.objects, ParentEdges, HasParent);
  }

  // ------------------------------------------------------------- the total

  /** Foreign-key column pairs and trigger targets: the relations that become two edges. */
  function DoubledRelations(s: SchemaSnapshot): nat { SumOf(s.constraints, ForeignKeyColumns) + |s.triggers| }

  lemma TypedEdgesCount(s: SchemaSnapshot)
    requires forall c :: c in s.constraints && c.kind == ForeignKeyRule ==> |c.columns| == |c.referencedColumns|
    ensures |TypedEdges(s)| + Skipped(s) == TypedTotal(s) + DoubledRelations(s)
  {
    SingleEdges(s.schemas, SchemaEdges);
    SingleEdges(s.tables, TableEdges);
    SingleEdges(s.columns, ColumnEdges);
    ConstraintsCount(s.constraints);
    IndexesCount(s.indexes);
    ViewsCount(s.views);
    TriggersCount(s.triggers);
    RoutinesCount(s.routines);
  }

  lemma EdgesInOrderCount(x: CanonicalSchemaSnapshot)
    requires forall c :: c in x.schema.constraints && c.kind == ForeignKeyRule ==> |c.columns| == |c.referencedColumns|
    ensures |EdgesInOrder(x)| + Skipped(x.schema) == RelationTotal(x) + DoubledRelations(x.schema)
  {
    TypedEdgesCount(x.schema);
    MetadataCount(x.metadata);
  }

  lemma SumsReordered(a: SchemaSnapshot, b: SchemaSnapshot)
    requires Reordered(a, b)
    ensures Skipped(a) == Skipped(b) && DoubledRelations(a) == DoubledRelations(b) && TypedTotal(a) == TypedTotal(b)
  {
    SameLength(a.schemas, b.schemas);
    SameLength(a.tables, b.tables);
    SameLength(a.columns, b.columns);
    SameLength(a.constraints, b.constraints);
    SameLength(a.indexes, b.indexes);
    SameLength(a.views, b.views);
    SameLength(a.triggers, b.triggers);
    SameLength(a.routines, b.routines);
    SumOfPermuted(a.constraints, b.constraints, OtherColumns);
    SumOfPermuted(a.constraints, b.constraints, ForeignKeyColumns);
    SumOfPermuted(a.indexes, b.indexes, IndexWidth);
    SumOfPermuted(a.views, b.views, ViewWidth);
    SumOfPermuted(a.triggers, b.triggers, RunsRoutine);
    SumOfPermuted(a.routines, b.routines, RoutineWidth);
    SumOfPermuted(a.views, b.views, SkippedOfView);
    SumOfPermuted(a.routines, b.routines, SkippedOfRoutine);
  }

  lemma SameLength<T>(a: seq<T>, b: seq<T>)
    requires multiset(a) == multiset(b)
    ensures |a| == |b|
  {
    assert |multiset(a)| == |multiset(b)|;
  }

  lemma TotalsReordered(a: CanonicalSchemaSnapshot, b: CanonicalSchemaSnapshot)
    requires CanonicalReordered(a, b)
    ensures RelationTotal(a) == RelationTotal(b)
  {
    SumsReordered(a.schema, b.schema);
    SameLength(a.metadata.relationships, b.metadata.relationships);
    SumOfPermuted(a.metadata.objects, b.metadata.objects, HasParent);
  }

  /** The edges planned for a well-formed snapshot: every semantic relation once, foreign-key pairs
      and trigger targets twice, and nothing for a skipped dependency. */
  lemma EdgePlanCount(s: CanonicalSchemaSnapshot)
    requires CanonicalWellFormed(s)
    ensures |EdgePlan(s)| + Skipped(s.schema) == RelationTotal(s) + DoubledRelations(s.schema)
  {
    hide CanonicalWellFormed;
    var x := InKeyOrder(s);
    InKeyOrderReorders(s);
    TotalsReordered(x, s);
    SumsReordered(x.schema, s.schema);
    SameElements(x.schema.constraints, s.schema.constraints);
    PairedColumns(s);
    EdgesInOrderCount(x);
  }

  lemma PairedColumns(s: CanonicalSchemaSnapshot)
    requires CanonicalWellFormed(s)
    ensures forall c :: c in s.schema.constraints && c.kind == ForeignKeyRule ==> |c.columns| == |c.referencedColumns|
  {
    var known := KnownKeys(Entries(s.schema));
    forall c | c in s.schema.constraints && c.kind == ForeignKeyRule ensures |c.columns| == |c.referencedColumns| {
      assert ConstraintOk(known, s.schema.connectionAlias, c);
    }
  }
}
