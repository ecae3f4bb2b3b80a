/** The canonical form of a snapshot: sorted collections, sorted lists without repeats (canonical.rs). */
module Canonical {
  import opened Wrappers
  import opened Lists
  import opened Ordering
  import opened ObjectKeys
  import opened SchemaModel
  import opened SnapshotRules

  // --------------------------------------------------------------- sort keys

  function ByKey(key: ObjectKey): SortKey { ByText(Print(key)) }
  function SchemaOrder(o: SchemaObject): SortKey { ByKey(o.key) }
  function TableOrder(o: TableObject): SortKey { ByKey(o.key) }
  function ColumnOrder(o: ColumnObject): SortKey { ByKey(o.key) }
  function ConstraintOrder(o: ConstraintObject): SortKey { ByKey(o.key) }
  function IndexOrder(o: IndexObject): SortKey { ByKey(o.key) }
  function ViewOrder(o: ViewObject): SortKey { ByKey(o.key) }
  function TriggerOrder(o: TriggerObject): SortKey { ByKey(o.key) }
  function RoutineOrder(o: RoutineObject): SortKey { ByKey(o.key) }
  function MetadataOrder(o: MetadataObject): SortKey { ByKey(o.key) }
  function AnnotationOrder(o: ObjectAnnotation): SortKey { ByKey(o.objectKey) }

  /** The declaration order of the relationship kinds; extensions come last, by name. */
  function KindRank(kind: MetadataRelationshipKind): nat {
    match kind
    case DependsOn => 0
    case UsesType => 1
    case UsesSequence => 2
    case PartitionOf => 3
    case InheritsFrom => 4
    case SynonymFor => 5
    case HasParameter => 6
    case ReturnsType => 7
    case OwnedBy => 8
    case Materializes => 9
    case Invokes => 10
    case IncludesColumn => 11
    case ExcludesWith => 12
    case ExtensionRelation(_) => 13
  }

  function KindName(kind: MetadataRelationshipKind): string {
    match kind case ExtensionRelation(name) => name case _ => []
  }

  function OrdinalRank(ordinal: Option<nat>): nat { match ordinal case Some(n) => n + 1 case None => 0 }

  function RelationshipOrder(r: MetadataRelationship): SortKey {
    SortKey(KindRank(r.kind), [KindName(r.kind), Print(r.fromKey), Print(r.toKey)], OrdinalRank(r.ordinal))
  }

  lemma ByKeyInjective(a: ObjectKey, b: ObjectKey)
    requires ByKey(a) == ByKey(b)
    ensures a == b
  {
    assert [Print(a)][0] == [Print(b)][0];
    PrintInjective(a, b);
  }

  lemma ByTextInjective(a: string, b: string)
    requires ByText(a) == ByText(b)
    ensures a == b
  {
    assert [a][0] == [b][0];
  }

  // ------------------------------------------------------------- normal form

  function SortedSet<T(==)>(s: seq<T>, key: T -> SortKey): seq<T> { Dedup(StableSort(s, key), (x: T) => x) }

  function NormalView(v: ViewObject): ViewObject { v.(dependsOn := SortedSet(v.dependsOn, ByKey)) }
  function NormalTrigger(t: TriggerObject): TriggerObject { t.(events := SortedSet(t.events, ByText)) }
  function NormalRoutine(r: RoutineObject): RoutineObject { r.(dependsOn := SortedSet(r.dependsOn, ByKey)) }

  function NormalCapabilities(c: AdapterCapabilities): AdapterCapabilities {
    c.(notes := SortedSet(c.notes, ByText), limitations := SortedSet(c.limitations, ByText))
  }

  function NormalSchema(s: SchemaSnapshot): SchemaSnapshot {
    s.(schemas := StableSort(s.schemas, SchemaOrder),
       tables := StableSort(s.tables, TableOrder),
       columns := StableSort(s.columns, ColumnOrder),
       constraints := StableSort(s.constraints, ConstraintOrder),
       indexes := StableSort(s.indexes, IndexOrder),
       views := MapSeq(NormalView, StableSort(s.views, ViewOrder)),
       triggers := MapSeq(NormalTrigger, StableSort(s.triggers, TriggerOrder)),
       routines := MapSeq(NormalRoutine, StableSort(s.routines, RoutineOrder)),
       capabilities := NormalCapabilities(s.capabilities))
  }

  function NormalMetadata(m: CanonicalMetadata): CanonicalMetadata {
    CanonicalMetadata(StableSort(m.objects, MetadataOrder), StableSort(m.annotations, AnnotationOrder),
                      StableSort(m.relationships, RelationshipOrder))
  }

  /** `normalize_canonical_snapshot`. */
  function Normalize(s: CanonicalSchemaSnapshot): CanonicalSchemaSnapshot {
    CanonicalSchemaSnapshot(NormalSchema(s.schema), NormalMetadata(s.metadata))
  }

  // ------------------------------------------------------------- idempotence

  lemma SortTwice<T>(s: seq<T>, key: T -> SortKey)
    ensures StableSort(StableSort(s, key), key) == StableSort(s, key)
  {
    StableSortKeeps(s, key);
    StableSortOfSorted(StableSort(s, key), key);
  }

  lemma SortedSetTwice<T>(s: seq<T>, key: T -> SortKey)
    requires forall x, y :: x in s && y in s && key(x) == key(y) ==> x == y
    ensures SortedSet(SortedSet(s, key), key) == SortedSet(s, key)
  {
    var r := SortedSet(s, key);
    SortDedup(s, key, (x: T) => x, r);
    StrictlySortedLength(r, key);
    StrictIsSorted(r, key);
    StableSortOfSorted(r, key);
    DedupOfStrict(r, (x: T) => x);
  }

  lemma StrictIsSorted<T>(s: seq<T>, key: T -> SortKey)
    requires StrictlySorted(s, key)
    ensures Sorted(s, key)
  {
    forall i, j | 0 <= i < j < |s| ensures !Less(key(s[j]), key(s[i])) { LessTotal(key(s[i]), key(s[j])); }
  }

  /** Normalising the items of a list does not move them. */
  lemma MappedSortTwice<T>(s: seq<T>, key: T -> SortKey, norm: T -> T)
    requires forall x :: key(norm(x)) == key(x)
    requires forall x :: x in s ==> norm(norm(x)) == norm(x)
    ensures var r := MapSeq(norm, StableSort(s, key)); MapSeq(norm, StableSort(r, key)) == r
  {
    var sorted := StableSort(s, key);
    var r := MapSeq(norm, sorted);
    assert Sorted(sorted, key) by { StableSortKeeps(s, key); }
    StableSortElements(s, key, sorted);
    forall i, j | 0 <= i < j < |r| ensures !Less(key(r[j]), key(r[i])) {
      assert key(r[i]) == key(sorted[i]) && key(r[j]) == key(sorted[j]);
    }
    StableSortOfSorted(r, key);
    forall i | 0 <= i < |r| ensures norm(r[i]) == r[i] { assert sorted[i] in s; }
    assert MapSeq(norm, r) == r;
  }

  lemma KeyListsTwice(keys: seq<ObjectKey>)
    ensures SortedSet(SortedSet(keys, ByKey), ByKey) == SortedSet(keys, ByKey)
  {
    forall x, y | x in keys && y in keys && ByKey(x) == ByKey(y) ensures x == y { ByKeyInjective(x, y); }
    SortedSetTwice(keys, ByKey);
  }

  lemma TextListsTwice(texts: seq<string>)
    ensures SortedSet(SortedSet(texts, ByText), ByText) == SortedSet(texts, ByText)
  {
    forall x, y | x in texts && y in texts && ByText(x) == ByText(y) ensures x == y { ByTextInjective(x, y); }
    SortedSetTwice(texts, ByText);
  }

  /** Normalising twice is normalising once, for every snapshot. */
  lemma NormalizeIdempotent(s: CanonicalSchemaSnapshot)
    ensures Normalize(Normalize(s)) == Normalize(s)
  {
    SortTwice(s.schema.schemas, SchemaOrder);
    SortTwice(s.schema.tables, TableOrder);
    SortTwice(s.schema.columns, ColumnOrder);
    SortTwice(s.schema.constraints, ConstraintOrder);
    SortTwice(s.schema.indexes, IndexOrder);
    forall v | v in s.schema.views ensures NormalView(NormalView(v)) == NormalView(v) { KeyListsTwice(v.dependsOn); }
    MappedSortTwice(s.schema.views, ViewOrder, NormalView);
    forall t | t in s.schema.triggers ensures NormalTrigger(NormalTrigger(t)) == NormalTrigger(t) {
      TextListsTwice(t.events);
    }
    MappedSortTwice(s.schema.triggers, TriggerOrder, NormalTrigger);
    forall r | r in s.schema.routines ensures NormalRoutine(NormalRoutine(r)) == NormalRoutine(r) {
      KeyListsTwice(r.dependsOn);
    }
    MappedSortTwice(s.schema.routines, RoutineOrder, NormalRoutine);
    TextListsTwice(s.schema.capabilities.notes);
    TextListsTwice(s.schema.capabilities.limitations);
    SortTwice(s.metadata.objects, MetadataOrder);
    SortTwice(s.metadata.annotations, AnnotationOrder);
    SortTwice(s.metadata.relationships, RelationshipOrder);
  }

  // -------------------------------------------------------------- canonicity

  ghost predicate SameSet<T(!new)>(a: seq<T>, b: seq<T>) { forall x :: x in a <==> x in b }

  /** Two lists with the same items, each with a key of its own. */
  ghost predicate Shuffled<T>(a: seq<T>, b: seq<T>, key: T -> SortKey) {
    multiset(a) == multiset(b) && DistinctKeys(a, key)
  }

  /** The same up to the order and repeats of the dependency lists. */
  ghost predicate SameView(a: ViewObject, b: ViewObject) {
    a == b.(dependsOn := a.dependsOn) && SameSet(a.dependsOn, b.dependsOn)
  }

  ghost predicate SameTrigger(a: TriggerObject, b: TriggerObject) {
    a == b.(events := a.events) && SameSet(a.events, b.events)
  }

  ghost predicate SameRoutine(a: RoutineObject, b: RoutineObject) {
    a == b.(dependsOn := a.dependsOn) && SameSet(a.dependsOn, b.dependsOn)
  }

  /** Two equally long lists with distinct keys in which every item of one has its like in the
      other; as like items have the same key, this pairs all items up. */
  ghost predicate ShuffledUpTo<T(!new)>(a: seq<T>, b: seq<T>, key: T -> SortKey, same: (T, T) -> bool) {
    && DistinctKeys(a, key) && DistinctKeys(b, key) && |a| == |b|
    && (forall x :: x in a ==> exists y :: y in b && same(x, y))
  }

  /** Snapshots that differ only in the order of collections, and in the order and repeats of
      dependency, event, note and limitation lists. */
  ghost predicate Equivalent(a: CanonicalSchemaSnapshot, b: CanonicalSchemaSnapshot) {
    var x, y := a.schema, b.schema;
    && x == y.(schemas := x.schemas, tables := x.tables, columns := x.columns, constraints := x.constraints,
               indexes := x.indexes,
               views := x.views, triggers := x.triggers, routines := x.routines, capabilities := x.capabilities)
    && x.capabilities == y.capabilities.(notes := x.capabilities.notes, limitations := x.capabilities.limitations)
    && SameSet(x.capabilities.notes, y.capabilities.notes)
       && SameSet(x.capabilities.limitations, y.capabilities.limitations)
    && Shuffled(x.schemas, y.schemas, SchemaOrder) && Shuffled(x.tables, y.tables, TableOrder)
    && Shuffled(x.columns, y.columns, ColumnOrder) && Shuffled(x.constraints, y.constraints, ConstraintOrder)
    && Shuffled(x.indexes, y.indexes, IndexOrder)
    && ShuffledUpTo(x.views, y.views, ViewOrder, (v, w) => SameView(v, w))
    && ShuffledUpTo(x.triggers, y.triggers, TriggerOrder, (v, w) => SameTrigger(v, w))
    && ShuffledUpTo(x.routines, y.routines, RoutineOrder, (v, w) => SameRoutine(v, w))
    && Shuffled(a.metadata.objects, b.metadata.objects, MetadataOrder)
    && Shuffled(a.metadata.annotations, b.metadata.annotations, AnnotationOrder)
    && Shuffled(a.metadata.relationships, b.metadata.relationships, RelationshipOrder)
  }

  lemma SortedSetCanonical<T>(a: seq<T>, b: seq<T>, key: T -> SortKey)
    requires forall x :: x in a <==> x in b
    requires forall x, y :: x in a && y in a && key(x) == key(y) ==> x == y
    ensures SortedSet(a, key) == SortedSet(b, key)
  {
    var r, t := SortedSet(a, key), SortedSet(b, key);
    SortDedup(a, key, (x: T) => x, r);
    SortDedup(b, key, (x: T) => x, t);
    StrictlySortedUnique(r, t, key);
  }

  lemma KeyListsCanonical(a: seq<ObjectKey>, b: seq<ObjectKey>)
    requires SameSet(a, b)
    ensures SortedSet(a, ByKey) == SortedSet(b, ByKey)
  {
    forall x, y | x in a && y in a && ByKey(x) == ByKey(y) ensures x == y { ByKeyInjective(x, y); }
    SortedSetCanonical(a, b, ByKey);
  }

  lemma TextListsCanonical(a: seq<string>, b: seq<string>)
    requires SameSet(a, b)
    ensures SortedSet(a, ByText) == SortedSet(b, ByText)
  {
    forall x, y | x in a && y in a && ByText(x) == ByText(y) ensures x == y { ByTextInjective(x, y); }
    SortedSetCanonical(a, b, ByText);
  }

  /** Sorting and then normalising items gives the same list for both orders. */
  lemma MappedSortCanonical<T(!new)>(a: seq<T>, b: seq<T>, key: T -> SortKey, same: (T, T) -> bool, norm: T -> T)
    requires ShuffledUpTo(a, b, key, same)
    requires forall x :: key(norm(x)) == key(x)
    requires forall x, y :: x in a && y in b && same(x, y) ==> norm(x) == norm(y)
    ensures MapSeq(norm, StableSort(a, key)) == MapSeq(norm, StableSort(b, key))
  {
    var sa, sb := StableSort(a, key), StableSort(b, key);
    SortsStrictly(a, key, sa);
    SortsStrictly(b, key, sb);
    var ra, rb := MapSeq(norm, sa), MapSeq(norm, sb);
    MappedStrict(sa, ra, key, norm);
    MappedStrict(sb, rb, key, norm);
    PairedMaps(a, b, sa, sb, same, norm, ra, rb);
    StableSortKeeps(a, key);
    StableSortKeeps(b, key);
    StrictlySortedLength(ra, key);
    StrictlySortedLength(rb, key);
    FullSubset(Elements(ra), Elements(rb));
    assert forall z :: z in ra <==> z in Elements(ra);
    assert forall z :: z in rb <==> z in Elements(rb);
    StrictlySortedUnique(ra, rb, key);
  }

  lemma FullSubset<T>(a: set<T>, b: set<T>)
    requires a <= b && |a| == |b|
    ensures a == b
  {
    assert b == a + (b - a);
  }

  lemma PairedMaps<T(!new)>(a: seq<T>, b: seq<T>, sa: seq<T>, sb: seq<T>, same: (T, T) -> bool, norm: T -> T,
                            ra: seq<T>, rb: seq<T>)
    requires (forall x :: x in sa ==> x in a) && (forall x :: x in b ==> x in sb)
    requires forall x :: x in a ==> exists y :: y in b && same(x, y)
    requires forall x, y :: x in a && y in b && same(x, y) ==> norm(x) == norm(y)
    requires ra == MapSeq(norm, sa) && rb == MapSeq(norm, sb)
    ensures forall z :: z in ra ==> z in rb
  {
    forall z | z in ra ensures z in rb {
      var i :| 0 <= i < |ra| && ra[i] == z;
      assert sa[i] in a;
      var y :| y in b && same(sa[i], y);
      assert y in sb;
      var j :| 0 <= j < |sb| && sb[j] == y;
      assert rb[j] == z;
    }
  }

  lemma SortsStrictly<T>(s: seq<T>, key: T -> SortKey, sorted: seq<T>)
    requires DistinctKeys(s, key) && sorted == StableSort(s, key)
    ensures StrictlySorted(sorted, key) && forall x :: x in sorted <==> x in s
  {
    StableSortCanonical(s, s, key);
    StableSortElements(s, key, sorted);
  }

  lemma MappedStrict<T>(sorted: seq<T>, mapped: seq<T>, key: T -> SortKey, norm: T -> T)
    requires StrictlySorted(sorted, key) && mapped == MapSeq(norm, sorted)
    requires forall x :: key(norm(x)) == key(x)
    ensures StrictlySorted(mapped, key)
  {
    forall i, j | 0 <= i < j < |mapped| ensures Less(key(mapped[i]), key(mapped[j])) {
      assert key(mapped[i]) == key(sorted[i]) && key(mapped[j]) == key(sorted[j]);
    }
  }

  /** Equivalent snapshots have the same normal form. */
  lemma NormalizeCanonical(a: CanonicalSchemaSnapshot, b: CanonicalSchemaSnapshot)
    requires Equivalent(a, b)
    ensures Normalize(a) == Normalize(b)
  {
    PlainCollectionsCanonical(a, b);
    ViewsCanonical(a.schema.views, b.schema.views);
    TriggersCanonical(a.schema.triggers, b.schema.triggers);
    RoutinesCanonical(a.schema.routines, b.schema.routines);
    TextListsCanonical(a.schema.capabilities.notes, b.schema.capabilities.notes);
    TextListsCanonical(a.schema.capabilities.limitations, b.schema.capabilities.limitations);
  }

  lemma PlainCollectionsCanonical(a: CanonicalSchemaSnapshot, b: CanonicalSchemaSnapshot)
    requires Equivalent(a, b)
    ensures StableSort(a.schema.schemas, SchemaOrder) == StableSort(b.schema.schemas, SchemaOrder)
    ensures StableSort(a.schema.tables, TableOrder) == StableSort(b.schema.tables, TableOrder)
    ensures StableSort(a.schema.columns, ColumnOrder) == StableSort(b.schema.columns, ColumnOrder)
    ensures StableSort(a.schema.constraints, ConstraintOrder) == StableSort(b.schema.constraints, ConstraintOrder)
    ensures StableSort(a.schema.indexes, IndexOrder) == StableSort(b.schema.indexes, IndexOrder)
    ensures NormalMetadata(a.metadata) == NormalMetadata(b.metadata)
  {
    StableSortCanonical(a.schema.schemas, b.schema.schemas, SchemaOrder);
    StableSortCanonical(a.schema.tables, b.schema.tables, TableOrder);
    StableSortCanonical(a.schema.columns, b.schema.columns, ColumnOrder);
    StableSortCanonical(a.schema.constraints, b.schema.constraints, ConstraintOrder);
    StableSortCanonical(a.schema.indexes, b.schema.indexes, IndexOrder);
    StableSortCanonical(a.metadata.objects, b.metadata.objects, MetadataOrder);
    StableSortCanonical(a.metadata.annotations, b.metadata.annotations, AnnotationOrder);
    StableSortCanonical(a.metadata.relationships, b.metadata.relationships, RelationshipOrder);
  }

  lemma ViewsCanonical(a: seq<ViewObject>, b: seq<ViewObject>)
    requires ShuffledUpTo(a, b, ViewOrder, (v, w) => SameView(v, w))
    ensures MapSeq(NormalView, StableSort(a, ViewOrder)) == MapSeq(NormalView, StableSort(b, ViewOrder))
  {
    forall v, w | v in a && w in b && SameView(v, w) ensures NormalView(v) == NormalView(w) {
      KeyListsCanonical(v.dependsOn, w.dependsOn);
    }
    MappedSortCanonical(a, b, ViewOrder, (v, w) => SameView(v, w), NormalView);
  }

  lemma TriggersCanonical(a: seq<TriggerObject>, b: seq<TriggerObject>)
    requires ShuffledUpTo(a, b, TriggerOrder, (v, w) => SameTrigger(v, w))
    ensures MapSeq(NormalTrigger, StableSort(a, TriggerOrder)) == MapSeq(NormalTrigger, StableSort(b, TriggerOrder))
  {
    forall v, w | v in a && w in b && SameTrigger(v, w) ensures NormalTrigger(v) == NormalTrigger(w) {
      TextListsCanonical(v.events, w.events);
    }
    MappedSortCanonical(a, b, TriggerOrder, (v, w) => SameTrigger(v, w), NormalTrigger);
  }

  lemma RoutinesCanonical(a: seq<RoutineObject>, b: seq<RoutineObject>)
    requires ShuffledUpTo(a, b, RoutineOrder, (v, w) => SameRoutine(v, w))
    ensures MapSeq(NormalRoutine, StableSort(a, RoutineOrder)) == MapSeq(NormalRoutine, StableSort(b, RoutineOrder))
  {
    forall v, w | v in a && w in b && SameRoutine(v, w) ensures NormalRoutine(v) == NormalRoutine(w) {
      KeyListsCanonical(v.dependsOn, w.dependsOn);
    }
    MappedSortCanonical(a, b, RoutineOrder, (v, w) => SameRoutine(v, w), NormalRoutine);
  }

  /** Normalising moves whole constraints and indexes: their column lists keep their order. */
  lemma NormalizeMovesWholeObjects(s: CanonicalSchemaSnapshot)
    ensures multiset(Normalize(s).schema.constraints) == multiset(s.schema.constraints)
    ensures multiset(Normalize(s).schema.indexes) == multiset(s.schema.indexes)
    ensures multiset(Normalize(s).schema.columns) == multiset(s.schema.columns)
  {
    StableSortKeeps(s.schema.constraints, ConstraintOrder);
    StableSortKeeps(s.schema.indexes, IndexOrder);
    StableSortKeeps(s.schema.columns, ColumnOrder);
  }
}
