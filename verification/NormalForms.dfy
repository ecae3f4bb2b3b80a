/** The normal form of a well-formed snapshot is well formed (canonical.rs, canonical_validation.rs). */
module NormalForms {
  import opened Wrappers
  import opened Lists
  import opened Ordering
  import opened ObjectKeys
  import opened SchemaModel
  import opened TextRules
  import opened SnapshotRules
  import opened CanonicalRules
  import opened Canonical

  /** The snapshot with every collection in normal order, its items as they are. */
  function InNormalOrder(s: CanonicalSchemaSnapshot): CanonicalSchemaSnapshot {
    CanonicalSchemaSnapshot(
      s.schema.(schemas := StableSort(s.schema.schemas, SchemaOrder), tables := StableSort(s.schema.tables, TableOrder),
                columns := StableSort(s.schema.columns, ColumnOrder),
                constraints := StableSort(s.schema.constraints, ConstraintOrder),
                indexes := StableSort(s.schema.indexes, IndexOrder), views := StableSort(s.schema.views, ViewOrder),
                triggers := StableSort(s.schema.triggers, TriggerOrder),
                routines := StableSort(s.schema.routines, RoutineOrder)),
      NormalMetadata(s.metadata))
  }

  lemma SortedReorders(s: CanonicalSchemaSnapshot)
    ensures CanonicalReordered(InNormalOrder(s), s)
  {
    StableSortKeeps(s.schema.schemas, SchemaOrder);
    StableSortKeeps(s.schema.tables, TableOrder);
    StableSortKeeps(s.schema.columns, ColumnOrder);
    StableSortKeeps(s.schema.constraints, ConstraintOrder);
    StableSortKeeps(s.schema.indexes, IndexOrder);
    StableSortKeeps(s.schema.views, ViewOrder);
    StableSortKeeps(s.schema.triggers, TriggerOrder);
    StableSortKeeps(s.schema.routines, RoutineOrder);
    StableSortKeeps(s.metadata.objects, MetadataOrder);
    StableSortKeeps(s.metadata.annotations, AnnotationOrder);
    StableSortKeeps(s.metadata.relationships, RelationshipOrder);
  }

  // ---------------------------------------------------- items one by one

  lemma StrictIsDistinct<T>(s: seq<T>, key: T -> SortKey)
    requires StrictlySorted(s, key)
    ensures NoDuplicates(s)
  {
    forall i, j | 0 <= i < j < |s| ensures s[i] != s[j] { LessTotal(key(s[i]), key(s[j])); }
  }

  lemma SortedSetItems<T>(s: seq<T>, key: T -> SortKey)
    requires forall x, y :: x in s && y in s && key(x) == key(y) ==> x == y
    ensures NoDuplicates(SortedSet(s, key)) && forall x :: x in SortedSet(s, key) <==> x in s
  {
    var r := SortedSet(s, key);
    SortDedup(s, key, (x: T) => x, r);
    StrictIsDistinct(r, key);
  }

  lemma KeySetNormal(keys: seq<ObjectKey>)
    ensures NoDuplicates(SortedSet(keys, ByKey)) && forall k :: k in SortedSet(keys, ByKey) <==> k in keys
  {
    forall x, y | x in keys && y in keys && ByKey(x) == ByKey(y) ensures x == y { ByKeyInjective(x, y); }
    SortedSetItems(keys, ByKey);
  }

  lemma TextSetNormal(texts: seq<string>)
    ensures NoDuplicates(SortedSet(texts, ByText)) && forall t :: t in SortedSet(texts, ByText) <==> t in texts
  {
    forall x, y | x in texts && y in texts && ByText(x) == ByText(y) ensures x == y { ByTextInjective(x, y); }
    SortedSetItems(texts, ByText);
  }

  lemma NormalItemsOk(s: SchemaSnapshot, known: set<ObjectKey>, alias: string)
    ensures forall v :: ViewOk(known, alias, v) ==> ViewOk(known, alias, NormalView(v))
    ensures forall t :: TriggerOk(known, alias, t) ==> TriggerOk(known, alias, NormalTrigger(t))
    ensures forall r :: RoutineOk(known, alias, r) ==> RoutineOk(known, alias, NormalRoutine(r))
  {
    hide SortedSet, NoDuplicates, Fits;
    forall v | ViewOk(known, alias, v) ensures ViewOk(known, alias, NormalView(v)) { KeySetNormal(v.dependsOn); }
    forall t | TriggerOk(known, alias, t) ensures TriggerOk(known, alias, NormalTrigger(t)) {
      TextSetNormal(t.events);
      assert t.events[0] in SortedSet(t.events, ByText);
    }
    forall r | RoutineOk(known, alias, r) ensures RoutineOk(known, alias, NormalRoutine(r)) {
      KeySetNormal(r.dependsOn);
    }
  }

  // ---------------------------------------------------------------- the whole

  lemma NormalEntries(s: CanonicalSchemaSnapshot)
    ensures Entries(Normalize(s).schema) == Entries(InNormalOrder(s).schema)
    ensures AllEntries(Normalize(s)) == AllEntries(InNormalOrder(s))
  {
    var n, m := Normalize(s).schema, InNormalOrder(s).schema;
    assert ViewEntries(n.views) == ViewEntries(m.views);
    assert TriggerEntries(n.triggers) == TriggerEntries(m.triggers);
    assert RoutineEntries(n.routines) == RoutineEntries(m.routines);
  }

  lemma NormalObjects(s: CanonicalSchemaSnapshot, known: set<ObjectKey>)
    requires ObjectsOk(InNormalOrder(s).schema, known)
    ensures ObjectsOk(Normalize(s).schema, known)
  {
    hide StableSort, ViewOk, TriggerOk, RoutineOk, NormalView, NormalTrigger, NormalRoutine;
    var n, m := Normalize(s).schema, InNormalOrder(s).schema;
    NormalItemsOk(s.schema, known, s.schema.connectionAlias);
    assert n.views == MapSeq(NormalView, m.views) && n.triggers == MapSeq(NormalTrigger, m.triggers)
           && n.routines == MapSeq(NormalRoutine, m.routines);
    forall i | 0 <= i < |n.views| ensures ViewOk(known, n.connectionAlias, n.views[i]) {
      assert ViewOk(known, m.connectionAlias, m.views[i]);
    }
    forall i | 0 <= i < |n.triggers| ensures TriggerOk(known, n.connectionAlias, n.triggers[i]) {
      assert TriggerOk(known, m.connectionAlias, m.triggers[i]);
    }
    forall i | 0 <= i < |n.routines| ensures RoutineOk(known, n.connectionAlias, n.routines[i]) {
      assert RoutineOk(known, m.connectionAlias, m.routines[i]);
    }
  }

  /** Normalising a snapshot the validator accepts gives one it accepts, with the same objects. */
  lemma NormalizeKeepsWellFormed(s: CanonicalSchemaSnapshot)
    requires CanonicalWellFormed(s)
    ensures CanonicalWellFormed(Normalize(s)) && KnownKeys(AllEntries(Normalize(s))) == KnownKeys(AllEntries(s))
  {
    hide Entries, AllEntries, KeysOf, KnownKeys, ObjectsOk, NoDuplicates, InScope, StableSort, SortedSet,
        MetadataObjectOk,
         ParentOk, AnnotationOk, RelationshipOk, MapSeq, CanonicalReordered;
    SortedReorders(s);
    CanonicalWellFormedReordered(InNormalOrder(s), s);
    AllEntriesReordered(InNormalOrder(s), s);
    NormalEntries(s);
    NormalObjects(s, KnownKeys(Entries(InNormalOrder(s).schema)));
    NormalScopeKept(s);
  }

  lemma NormalScopeKept(s: CanonicalSchemaSnapshot)
    ensures Normalize(s).schema.database == InNormalOrder(s).schema.database
            && Normalize(s).schema.columns == InNormalOrder(s).schema.columns
            && Normalize(s).schema.connectionAlias == InNormalOrder(s).schema.connectionAlias
            && Normalize(s).metadata == InNormalOrder(s).metadata
    ensures HeaderOk(InNormalOrder(s).schema) ==> HeaderOk(Normalize(s).schema)
    ensures forall o :: MetadataObjectOk(InNormalOrder(s).schema, o) ==> MetadataObjectOk(Normalize(s).schema, o)
  {
    hide StableSort, SortedSet, PropertiesOk;
  }

  // -------------------------------------------------------- nothing is lost

  /** The same items, repeats included, in the order of their printed keys. */
  ghost predicate Arranged<T(!new)>(listed: seq<T>, given: seq<T>, key: T -> ObjectKey) {
    multiset(listed) == multiset(given) && Sorted(listed, x => ByText(Print(key(x))))
  }

  /** The same items without repeats, in the order of their texts. */
  ghost predicate FreeOfRepeats<T(!new)>(listed: seq<T>, given: seq<T>, text: T -> string) {
    && (forall x :: x in listed <==> x in given)
    && forall i, j :: 0 <= i < j < |listed| ==> Less(ByText(text(listed[i])), ByText(text(listed[j])))
  }

  ghost predicate ViewKept(listed: ViewObject, given: ViewObject) {
    listed.(dependsOn := given.dependsOn) == given && FreeOfRepeats(listed.dependsOn, given.dependsOn, Print)
  }

  ghost predicate TriggerKept(listed: TriggerObject, given: TriggerObject) {
    listed.(events := given.events) == given && FreeOfRepeats(listed.events, given.events, (e: string) => e)
  }

  ghost predicate RoutineKept(listed: RoutineObject, given: RoutineObject) {
    listed.(dependsOn := given.dependsOn) == given && FreeOfRepeats(listed.dependsOn, given.dependsOn, Print)
  }

  /** Item by item what the items of an arrangement of the given list are. */
  ghost predicate EachKept<T(!new)>(listed: seq<T>, given: seq<T>, key: T -> ObjectKey, kept: (T, T) -> bool) {
    exists arranged :: Arranged(arranged, given, key) && |listed| == |arranged|
                       && forall i :: 0 <= i < |listed| ==> kept(listed[i], arranged[i])
  }

  ghost predicate CapabilitiesKept(listed: AdapterCapabilities, given: AdapterCapabilities) {
    && listed.(notes := given.notes, limitations := given.limitations) == given
    && FreeOfRepeats(listed.notes, given.notes, (t: string) => t)
    && FreeOfRepeats(listed.limitations, given.limitations, (t: string) => t)
  }

  lemma SetKept<T(!new)>(given: seq<T>, key: T -> SortKey, text: T -> string)
    requires forall x, y :: x in given && y in given && text(x) == text(y) ==> x == y
    requires forall x :: key(x) == ByText(text(x))
    ensures FreeOfRepeats(SortedSet(given, key), given, text)
  {
    forall x, y | x in given && y in given && key(x) == key(y) ensures x == y { ByTextInjective(text(x), text(y)); }
    SortDedup(given, key, (x: T) => x, SortedSet(given, key));
  }

  lemma KeySetKept(keys: seq<ObjectKey>)
    ensures FreeOfRepeats(SortedSet(keys, ByKey), keys, Print)
  {
    forall x: ObjectKey, y: ObjectKey | Print(x) == Print(y) ensures x == y { PrintInjective(x, y); }
    SetKept(keys, ByKey, Print);
  }

  lemma TextSetKept(texts: seq<string>)
    ensures FreeOfRepeats(SortedSet(texts, ByText), texts, (t: string) => t)
  {
    SetKept(texts, ByText, (t: string) => t);
  }

  lemma SortArranges<T(!new)>(given: seq<T>, order: T -> SortKey, key: T -> ObjectKey)
    requires forall x :: order(x) == ByText(Print(key(x)))
    ensures Arranged(StableSort(given, order), given, key)
  {
    hide Print;
    StableSortKeeps(given, order);
  }

  /** The normal form has the collections of the snapshot, each arranged by printed key with its items as
      they are, except that dependencies, events, notes and limitations are sorted and freed of repeats. */
  lemma NormalizeKeepsContents(s: CanonicalSchemaSnapshot)
    ensures var n, g := Normalize(s).schema, s.schema;
            && n.sourceKind == g.sourceKind && n.connectionAlias == g.connectionAlias && n.database == g.database
            && Arranged(n.schemas, g.schemas, (o: SchemaObject) => o.key)
            && Arranged(n.tables, g.tables, (o: TableObject) => o.key)
            && Arranged(n.columns, g.columns, (o: ColumnObject) => o.key)
            && Arranged(n.constraints, g.constraints, (o: ConstraintObject) => o.key)
            && Arranged(n.indexes, g.indexes, (o: IndexObject) => o.key)
            && EachKept(n.views, g.views, (o: ViewObject) => o.key, ViewKept)
            && EachKept(n.triggers, g.triggers, (o: TriggerObject) => o.key, TriggerKept)
            && EachKept(n.routines, g.routines, (o: RoutineObject) => o.key, RoutineKept)
            && CapabilitiesKept(n.capabilities, g.capabilities)
    ensures var n, g := Normalize(s).metadata, s.metadata;
            && Arranged(n.objects, g.objects, (o: MetadataObject) => o.key)
            && Arranged(n.annotations, g.annotations, (o: ObjectAnnotation) => o.objectKey)
            && multiset(n.relationships) == multiset(g.relationships)
  {
    hide StableSort, SortedSet, Arranged, FreeOfRepeats, EachKept, Print;
    CollectionsArranged(s.schema);
    DependentsKept(s.schema);
    TextSetKept(s.schema.capabilities.notes);
    TextSetKept(s.schema.capabilities.limitations);
    SortArranges(s.metadata.objects, MetadataOrder, (o: MetadataObject) => o.key);
    SortArranges(s.metadata.annotations, AnnotationOrder, (o: ObjectAnnotation) => o.objectKey);
    StableSortKeeps(s.metadata.relationships, RelationshipOrder);
  }

  lemma CollectionsArranged(g: SchemaSnapshot)
    ensures var n := NormalSchema(g);
            && Arranged(n.schemas, g.schemas, (o: SchemaObject) => o.key)
            && Arranged(n.tables, g.tables, (o: TableObject) => o.key)
            && Arranged(n.columns, g.columns, (o: ColumnObject) => o.key)
            && Arranged(n.constraints, g.constraints, (o: ConstraintObject) => o.key)
            && Arranged(n.indexes, g.indexes, (o: IndexObject) => o.key)
  {
    hide StableSort, SortedSet, Arranged, Print;
    SortArranges(g.schemas, SchemaOrder, (o: SchemaObject) => o.key);
    SortArranges(g.tables, TableOrder, (o: TableObject) => o.key);
    SortArranges(g.columns, ColumnOrder, (o: ColumnObject) => o.key);
    SortArranges(g.constraints, ConstraintOrder, (o: ConstraintObject) => o.key);
    SortArranges(g.indexes, IndexOrder, (o: IndexObject) => o.key);
  }

  lemma DependentsKept(g: SchemaSnapshot)
    ensures var n := NormalSchema(g);
            && EachKept(n.views, g.views, (o: ViewObject) => o.key, ViewKept)
            && EachKept(n.triggers, g.triggers, (o: TriggerObject) => o.key, TriggerKept)
            && EachKept(n.routines, g.routines, (o: RoutineObject) => o.key, RoutineKept)
  {
    hide StableSort, SortedSet, Arranged, Print, FreeOfRepeats;
    var n := NormalSchema(g);
    var views, triggers := StableSort(g.views, ViewOrder), StableSort(g.triggers, TriggerOrder);
    var routines := StableSort(g.routines, RoutineOrder);
    SortArranges(g.views, ViewOrder, (o: ViewObject) => o.key);
    SortArranges(g.triggers, TriggerOrder, (o: TriggerObject) => o.key);
    SortArranges(g.routines, RoutineOrder, (o: RoutineObject) => o.key);
    forall i | 0 <= i < |views| ensures ViewKept(n.views[i], views[i]) { KeySetKept(views[i].dependsOn); }
    forall i | 0 <= i < |triggers| ensures TriggerKept(n.triggers[i], triggers[i]) { TextSetKept(triggers[i].events); }
    forall i | 0 <= i < |routines| ensures RoutineKept(n.routines[i], routines[i]) {
      KeySetKept(routines[i].dependsOn);
    }
    assert EachKept(n.views, g.views, (o: ViewObject) => o.key, ViewKept);
    assert EachKept(n.triggers, g.triggers, (o: TriggerObject) => o.key, TriggerKept);
    assert EachKept(n.routines, g.routines, (o: RoutineObject) => o.key, RoutineKept);
  }
}
