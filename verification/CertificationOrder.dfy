/** The outcome of certifying a snapshot does not depend on how its collections are listed
    (certification.rs). */
module CertificationOrder {
  import opened Wrappers
  import opened Lists
  import opened Ordering
  import opened ObjectKeys
  import opened SchemaModel
  import opened SnapshotRules
  import opened CanonicalRules
  import opened Canonical
  import opened Certification
  import opened ProjectionClosure

  // -------------------------------------------------------- distinct beforehand

  lemma DistinctSorted<T>(s: seq<T>, order: T -> SortKey, key: T -> ObjectKey)
    requires NoDuplicates(MapSeq(key, StableSort(s, order))) && forall x :: x in s ==> order(x) == ByKey(key(x))
    ensures DistinctKeys(s, order)
  {
    var sorted := StableSort(s, order);
    StableSortKeeps(s, order);
    MapPermuted(key, s, sorted, MapSeq(key, s), MapSeq(key, sorted));
    NoDuplicatesPermuted(MapSeq(key, s), MapSeq(key, sorted));
    forall i, j | 0 <= i < j < |s| ensures order(s[i]) != order(s[j]) {
      assert s[i] in s && s[j] in s;
      assert MapSeq(key, s)[i] != MapSeq(key, s)[j];
      if order(s[i]) == order(s[j]) { ByKeyInjective(key(s[i]), key(s[j])); }
    }
  }

  /** The same when the items were normalised after sorting. */
  lemma DistinctNormal<T>(s: seq<T>, order: T -> SortKey, key: T -> ObjectKey, norm: T -> T)
    requires NoDuplicates(MapSeq(key, MapSeq(norm, StableSort(s, order))))
    requires forall x :: x in s ==> order(x) == ByKey(key(x))
    requires forall x :: key(norm(x)) == key(x)
    ensures DistinctKeys(s, order)
  {
    assert MapSeq(key, MapSeq(norm, StableSort(s, order))) == MapSeq(key, StableSort(s, order));
    DistinctSorted(s, order, key);
  }

  lemma KindOrderInjective(a: MetadataRelationshipKind, b: MetadataRelationshipKind)
    requires KindRank(a) == KindRank(b) && KindName(a) == KindName(b)
    ensures a == b
  {
  }

  lemma RelationshipOrderInjective(x: MetadataRelationship, y: MetadataRelationship)
    requires RelationshipOrder(x) == RelationshipOrder(y)
    ensures (x.kind, x.fromKey, x.toKey, x.ordinal) == (y.kind, y.fromKey, y.toKey, y.ordinal)
  {
    hide Print, KindRank, KindName;
    var a, b := RelationshipOrder(x).texts, RelationshipOrder(y).texts;
    assert a[0] == b[0] && a[1] == b[1] && a[2] == b[2];
    KindOrderInjective(x.kind, y.kind);
    PrintInjective(x.fromKey, y.fromKey);
    PrintInjective(x.toKey, y.toKey);
  }

  lemma DistinctRelationships(s: seq<MetadataRelationship>)
    requires NoDuplicates(Identities(StableSort(s, RelationshipOrder)))
    ensures DistinctKeys(s, RelationshipOrder)
  {
    var sorted := StableSort(s, RelationshipOrder);
    StableSortKeeps(s, RelationshipOrder);
    MapPermuted((r: MetadataRelationship) => (r.kind, r.fromKey, r.toKey, r.ordinal), s, sorted, Identities(s),
                Identities(sorted));
    NoDuplicatesPermuted(Identities(s), Identities(sorted));
    forall i, j | 0 <= i < j < |s| ensures RelationshipOrder(s[i]) != RelationshipOrder(s[j]) {
      assert Identities(s)[i] != Identities(s)[j];
      if RelationshipOrder(s[i]) == RelationshipOrder(s[j]) { RelationshipOrderInjective(s[i], s[j]); }
    }
  }

  function AnnotationKey(a: ObjectAnnotation): ObjectKey { a.objectKey }

  /** A snapshot whose normal form is well formed lists nothing twice. */
  ghost predicate ListsOnce(s: CanonicalSchemaSnapshot) {
    && DistinctKeys(s.schema.schemas, SchemaOrder) && DistinctKeys(s.schema.tables, TableOrder)
    && DistinctKeys(s.schema.columns, ColumnOrder) && DistinctKeys(s.schema.constraints, ConstraintOrder)
    && DistinctKeys(s.schema.indexes, IndexOrder) && DistinctKeys(s.schema.views, ViewOrder)
    && DistinctKeys(s.schema.triggers, TriggerOrder) && DistinctKeys(s.schema.routines, RoutineOrder)
    && DistinctKeys(s.metadata.objects, MetadataOrder) && DistinctKeys(s.metadata.annotations, AnnotationOrder)
    && DistinctKeys(s.metadata.relationships, RelationshipOrder)
  }

  lemma WellFormedListsOnce(s: CanonicalSchemaSnapshot)
    requires CanonicalWellFormed(Normalize(s))
    ensures ListsOnce(s)
  {
    NormalParts(s);
    TypedListsOnce(s.schema);
    MetadataListsOnce(s.metadata);
  }

  lemma NormalParts(s: CanonicalSchemaSnapshot)
    requires CanonicalWellFormed(Normalize(s))
    ensures NoDuplicates(KeysOf(Entries(NormalSchema(s.schema))))
    ensures NoDuplicates(KeysOf(MetadataEntries(NormalMetadata(s.metadata).objects)))
    ensures NoDuplicates(AnnotatedKeys(NormalMetadata(s.metadata).annotations))
    ensures NoDuplicates(Identities(NormalMetadata(s.metadata).relationships))
  {
    hide NormalSchema, NormalMetadata, WellFormed, KnownKeys, MetadataEntries, Entries;
    SplitDistinct(Entries(NormalSchema(s.schema)), MetadataEntries(NormalMetadata(s.metadata).objects));
  }

  lemma TypedListsOnce(s: SchemaSnapshot)
    requires NoDuplicates(KeysOf(Entries(NormalSchema(s))))
    ensures DistinctKeys(s.schemas, SchemaOrder) && DistinctKeys(s.tables, TableOrder)
            && DistinctKeys(s.columns, ColumnOrder)
    ensures DistinctKeys(s.constraints, ConstraintOrder) && DistinctKeys(s.indexes, IndexOrder)
            && DistinctKeys(s.views, ViewOrder)
    ensures DistinctKeys(s.triggers, TriggerOrder) && DistinctKeys(s.routines, RoutineOrder)
  {
    hide Entries, KeysOf, StableSort, DistinctKeys, SortedSet, NoDuplicates, ByKey;
    CollectionsDistinct(NormalSchema(s));
    DistinctSorted(s.schemas, SchemaOrder, SchemaKey);
    DistinctSorted(s.tables, TableOrder, TableKey);
    DistinctSorted(s.columns, ColumnOrder, ColumnKey);
    DistinctSorted(s.constraints, ConstraintOrder, ConstraintKey);
    DistinctSorted(s.indexes, IndexOrder, IndexKey);
    DistinctNormal(s.views, ViewOrder, ViewKey, NormalView);
    DistinctNormal(s.triggers, TriggerOrder, TriggerKey, NormalTrigger);
    DistinctNormal(s.routines, RoutineOrder, RoutineKey, NormalRoutine);
  }

  lemma MetadataListsOnce(m: CanonicalMetadata)
    requires NoDuplicates(KeysOf(MetadataEntries(NormalMetadata(m).objects)))
             && NoDuplicates(AnnotatedKeys(NormalMetadata(m).annotations))
    requires NoDuplicates(Identities(NormalMetadata(m).relationships))
    ensures DistinctKeys(m.objects, MetadataOrder) && DistinctKeys(m.annotations, AnnotationOrder)
    ensures DistinctKeys(m.relationships, RelationshipOrder)
  {
    var normal := NormalMetadata(m);
    MarksAreKeys(normal.objects, MetadataKey, MetadataEntries(normal.objects));
    DistinctSorted(m.objects, MetadataOrder, MetadataKey);
    assert MapSeq(AnnotationKey, normal.annotations) == AnnotatedKeys(normal.annotations);
    DistinctSorted(m.annotations, AnnotationOrder, AnnotationKey);
    DistinctRelationships(m.relationships);
  }

  // ----------------------------------------------------------------- the result

  lemma DistinctPermuted<T>(a: seq<T>, b: seq<T>, order: T -> SortKey)
    requires multiset(a) == multiset(b) && DistinctKeys(a, order)
    ensures DistinctKeys(b, order) && |a| == |b| && forall x :: x in a ==> x in b
  {
    MapPermuted(order, a, b, MapSeq(order, a), MapSeq(order, b));
    NoDuplicatesPermuted(MapSeq(order, a), MapSeq(order, b));
    SameElements(a, b);
    assert |a| == |multiset(a)| == |b|;
    forall i, j | 0 <= i < j < |b| ensures order(b[i]) != order(b[j]) {
      assert MapSeq(order, b)[i] != MapSeq(order, b)[j];
    }
  }

  lemma PermutedIsEquivalent(a: CanonicalSchemaSnapshot, b: CanonicalSchemaSnapshot)
    requires CanonicalReordered(a, b) && ListsOnce(a)
    ensures Equivalent(a, b)
  {
    hide DistinctKeys;
    DistinctPermuted(a.schema.views, b.schema.views, ViewOrder);
    DistinctPermuted(a.schema.triggers, b.schema.triggers, TriggerOrder);
    DistinctPermuted(a.schema.routines, b.schema.routines, RoutineOrder);
    forall v | v in a.schema.views ensures v in b.schema.views && SameView(v, v) {}
    forall t | t in a.schema.triggers ensures t in b.schema.triggers && SameTrigger(t, t) {}
    forall r | r in a.schema.routines ensures r in b.schema.routines && SameRoutine(r, r) {}
  }

  lemma ReorderedBack(a: CanonicalSchemaSnapshot, b: CanonicalSchemaSnapshot)
    requires CanonicalReordered(a, b)
    ensures CanonicalReordered(b, a)
  {
  }

  /** Listing the collections of a snapshot, the capability checks and the scope values in any other
      order, the latter with any repeats, gives the same outcome: the same certificate or none. */
  lemma OutcomeIgnoresOrder(a: CanonicalSchemaSnapshot, b: CanonicalSchemaSnapshot, adapter: Identity, server: Identity,
                            scopeA: IntrospectionScope, scopeB: IntrospectionScope, discovered: DiscoveryCounts,
                            checksA: seq<CapabilityCheck>, checksB: seq<CapabilityCheck>)
    requires CanonicalReordered(a, b)
    requires SameSet(scopeA.catalogs, scopeB.catalogs) && SameSet(scopeA.schemas, scopeB.schemas)
    requires multiset(checksA) == multiset(checksB)
    ensures Certified(a, adapter, server, scopeA, discovered, checksA)
            == Certified(b, adapter, server, scopeB, discovered, checksB)
  {
    hide CanonicalWellFormed, Normalize, CanonicalReordered, Equivalent, ListsOnce, SameSet;
    if CanonicalWellFormed(Normalize(a)) {
      WellFormedListsOnce(a);
      PermutedIsEquivalent(a, b);
      CertificationIgnoresOrder(a, b, adapter, server, scopeA, scopeB, discovered, checksA, checksB);
    } else if CanonicalWellFormed(Normalize(b)) {
      ReorderedBack(a, b);
      WellFormedListsOnce(b);
      PermutedIsEquivalent(b, a);
      SameSetBack(scopeA.catalogs, scopeB.catalogs);
      SameSetBack(scopeA.schemas, scopeB.schemas);
      CertificationIgnoresOrder(b, a, adapter, server, scopeB, scopeA, discovered, checksB, checksA);
    }
  }

  lemma SameSetBack(a: seq<string>, b: seq<string>)
    requires SameSet(a, b)
    ensures SameSet(b, a)
  {
  }
}
