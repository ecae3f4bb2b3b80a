/** Small snapshots that both validators accept, and their certificates: one where two edges share a
    text key, one where a dependency has no edge, one where a routine without arguments reads a table
    (canonical_validation.rs, certification.rs). */
module SampleSnapshots {
  import opened Wrappers
  import opened Lists
  import opened Ordering
  import opened ObjectKeys
  import opened SchemaModel
  import opened TextRules
  import opened SnapshotRules
  import opened CanonicalRules
  import opened Canonical
  import opened Certification
  import opened NormalForms
  import opened CertificationCompleteness

  function KeyIn(schema: string, kind: ObjectKind, name: string, sub: Option<string>): ObjectKey {
    ObjectKey("s", "s", "s", schema, kind, name, sub)
  }

  const SOURCE := KeyIn("s", Database, "s", None)
  const OWNER := KeyIn("s", Schema, "s", None)
  const OTHER := KeyIn("routine", Schema, "routine", None)
  const TABLE := KeyIn("routine", Table, "foo", None)
  const VIEW := KeyIn("s", View, "v", None)

  /** A routine with a signature, and one without arguments, whose signature is the empty text. */
  const ROUTINE := KeyIn("s", Routine, "table", Some("foo"))
  const UNSIGNED_ROUTINE := KeyIn("s", Routine, "table", Some(""))

  const CAPABLE := AdapterCapabilities("s", true, true, true, true, true, true, Supported, Supported, Supported,
                                       Supported, [], [])

  const FOO := TableObject(TABLE, OTHER, "foo", BaseTable)

  function RoutineReading(key: ObjectKey, uses: seq<ObjectKey>): RoutineObject {
    RoutineObject(key, OWNER, "table", Procedure, None, uses)
  }

  function Holding(viewed: seq<ObjectKey>, routine: ObjectKey, uses: seq<ObjectKey>): SchemaSnapshot {
    SchemaSnapshot(
      "s", "s", DatabaseObject(SOURCE, "s"), [SchemaObject(OWNER, SOURCE, "s"), SchemaObject(OTHER, SOURCE, "routine")],
      [FOO], [], [], [], [ViewObject(VIEW, OWNER, "v", None, viewed)], [], [RoutineReading(routine, uses)], CAPABLE)
  }

  const FROM_ROUTINE := MetadataRelationship(ExtensionRelation("x"), ROUTINE, OWNER, None, map[])
  const FROM_TABLE := MetadataRelationship(ExtensionRelation("x:s"), TABLE, OWNER, None, map[])

  /** Two extension relationships whose texts coincide. */
  const COLLIDING := CanonicalSchemaSnapshot(Holding([], ROUTINE, []),
                                             CanonicalMetadata([], [], [FROM_ROUTINE, FROM_TABLE]))

  /** A view that depends on a routine. */
  const SKIPPING := CanonicalSchemaSnapshot(Holding([ROUTINE], ROUTINE, []), NoMetadata)

  /** A routine without arguments that reads a table. */
  const UNSIGNED := CanonicalSchemaSnapshot(Holding([], UNSIGNED_ROUTINE, [TABLE]), NoMetadata)

  predicate IsSample(s: CanonicalSchemaSnapshot) { s == COLLIDING || s == SKIPPING || s == UNSIGNED }

  // ------------------------------------------------------------- well-formedness

  lemma Kept(text: string, k: nat)
    requires k < |text| && !IsWhitespace(text[k])
    ensures !Blank(text)
  {
    assert text[k] in text;
  }

  lemma NamesAreKept()
    ensures !Blank("s") && !Blank("routine") && !Blank("foo") && !Blank("table") && !Blank("v") && !Blank("x")
            && !Blank("x:s")
  {
    Kept("s", 0);
    Kept("routine", 0);
    Kept("foo", 0);
    Kept("table", 0);
    Kept("v", 0);
    Kept("x", 0);
    Kept("x:s", 0);
  }

  function Listed(routine: ObjectKey): seq<Entry> {
    [Entry(SOURCE, Database), Entry(OWNER, Schema), Entry(OTHER, Schema), Entry(TABLE, Table), Entry(VIEW, View),
     Entry(routine, Routine)]
  }

  function Known(routine: ObjectKey): set<ObjectKey> { {SOURCE, OWNER, OTHER, TABLE, VIEW, routine} }

  predicate IsRoutine(routine: ObjectKey) { routine == ROUTINE || routine == UNSIGNED_ROUTINE }

  lemma HoldingEntries(viewed: seq<ObjectKey>, routine: ObjectKey, uses: seq<ObjectKey>)
    ensures Entries(Holding(viewed, routine, uses)) == Listed(routine)
  {
    var s := Holding(viewed, routine, uses);
    assert SchemaEntries(s.schemas) == [Entry(OWNER, Schema), Entry(OTHER, Schema)];
    assert TableEntries(s.tables) == [Entry(TABLE, Table)];
    assert ViewEntries(s.views) == [Entry(VIEW, View)];
    assert RoutineEntries(s.routines) == [Entry(routine, Routine)];
    assert ColumnEntries(s.columns) == [] && ConstraintEntries(s.constraints) == [] && IndexEntries(s.indexes) == []
           && TriggerEntries(s.triggers) == [];
  }

  lemma KeyInScope(schema: string, kind: ObjectKind, name: string, sub: Option<string>)
    requires !Blank(schema) && !Blank(name)
    ensures InScope(KeyIn(schema, kind, name, sub), "s", SOURCE)
  {
    Kept("s", 0);
  }

  lemma ListedInScope(routine: ObjectKey)
    requires IsRoutine(routine)
    ensures forall e :: e in Listed(routine) ==> e.key.objectKind == e.kind && InScope(e.key, "s", SOURCE)
  {
    hide InScope, Blank;
    NamesAreKept();
    KeyInScope("s", Database, "s", None);
    KeyInScope("s", Schema, "s", None);
    KeyInScope("routine", Schema, "routine", None);
    KeyInScope("routine", Table, "foo", None);
    KeyInScope("s", View, "v", None);
    KeyInScope("s", Routine, "table", routine.subObject);
  }

  lemma SixDistinct(k: seq<ObjectKey>)
    requires |k| == 6 && k[0].objectKind == Database && k[1].objectKind == k[2].objectKind == Schema
             && k[1].schema != k[2].schema
    requires k[3].objectKind == Table && k[4].objectKind == View && k[5].objectKind == Routine
    ensures NoDuplicates(k)
  {
  }

  lemma KnownOfSix(a: Entry, b: Entry, c: Entry, d: Entry, e: Entry, f: Entry)
    ensures KnownKeys([a, b, c, d, e, f]) == {a.key, b.key, c.key, d.key, e.key, f.key}
  {
    var all := [a, b, c, d, e, f];
    assert all[0] in all && all[1] in all && all[2] in all && all[3] in all && all[4] in all && all[5] in all;
  }

  lemma ListedKeys(routine: ObjectKey)
    requires IsRoutine(routine)
    ensures NoDuplicates(KeysOf(Listed(routine))) && KnownKeys(Listed(routine)) == Known(routine)
  {
    hide NoDuplicates, KnownKeys;
    var listed := Listed(routine);
    assert |OWNER.schema| != |OTHER.schema|;
    SixDistinct(KeysOf(listed));
    KnownOfSix(listed[0], listed[1], listed[2], listed[3], listed[4], listed[5]);
    assert listed == [listed[0], listed[1], listed[2], listed[3], listed[4], listed[5]];
  }

  predicate Fitting(viewed: seq<ObjectKey>, routine: ObjectKey, uses: seq<ObjectKey>) {
    IsRoutine(routine) && (viewed == [] || viewed == [routine]) && (uses == [] || uses == [TABLE])
  }

  lemma HoldingObjects(viewed: seq<ObjectKey>, routine: ObjectKey, uses: seq<ObjectKey>)
    requires Fitting(viewed, routine, uses)
    ensures ObjectsOk(Holding(viewed, routine, uses), Known(routine))
  {
  }

  lemma HoldingWellFormed(viewed: seq<ObjectKey>, routine: ObjectKey, uses: seq<ObjectKey>)
    requires Fitting(viewed, routine, uses)
    ensures WellFormed(Holding(viewed, routine, uses))
  {
    hide Entries, ObjectsOk, KnownKeys, KeysOf, InScope, Listed, Known;
    HoldingEntries(viewed, routine, uses);
    ListedKeys(routine);
    ListedInScope(routine);
    HoldingObjects(viewed, routine, uses);
    Kept("s", 0);
  }

  lemma RelationshipsOk()
    ensures RelationshipOk(Known(ROUTINE), FROM_ROUTINE)
    ensures RelationshipOk(Known(ROUTINE), FROM_TABLE)
  {
    NamesAreKept();
    assert ByteLength("x") == 1;
    assert "x:s"[1..] == ":s" && ":s"[1..] == "s";
    assert ByteLength("x:s") == 1 + ByteLength(":s") == 2 + ByteLength("s") == 3;
  }

  lemma TwoEdges()
    ensures MetadataOk(COLLIDING, Known(ROUTINE))
  {
    hide RelationshipOk;
    RelationshipsOk();
    var listed := Identities(COLLIDING.metadata.relationships);
    assert listed[0].1.objectKind != listed[1].1.objectKind;
  }

  lemma HoldingCanonical(viewed: seq<ObjectKey>, routine: ObjectKey, uses: seq<ObjectKey>, metadata: CanonicalMetadata)
    requires Fitting(viewed, routine, uses) && metadata.objects == []
    requires MetadataOk(CanonicalSchemaSnapshot(Holding(viewed, routine, uses), metadata), Known(routine))
    ensures var s := CanonicalSchemaSnapshot(Holding(viewed, routine, uses), metadata);
            CanonicalWellFormed(s) && KnownKeys(AllEntries(s)) == Known(routine)
  {
    hide WellFormed, Entries, KeysOf, KnownKeys, Holding, Listed, Known, MetadataOk;
    HoldingWellFormed(viewed, routine, uses);
    HoldingEntries(viewed, routine, uses);
    ListedKeys(routine);
    assert AllEntries(CanonicalSchemaSnapshot(Holding(viewed, routine, uses), metadata))
           == Listed(routine) + MetadataEntries([]) == Listed(routine);
  }

  lemma UnsignedWellFormed()
    ensures CanonicalWellFormed(UNSIGNED) && KnownKeys(AllEntries(UNSIGNED)) == Known(UNSIGNED_ROUTINE)
  {
    hide CanonicalWellFormed, KnownKeys, AllEntries, Holding;
    HoldingCanonical([], UNSIGNED_ROUTINE, [TABLE], NoMetadata);
  }

  lemma SampleWellFormed(s: CanonicalSchemaSnapshot)
    requires IsSample(s)
    ensures CanonicalWellFormed(s)
  {
    hide CanonicalWellFormed, KnownKeys, AllEntries, Holding;
    UnsignedWellFormed();
    TwoEdges();
    HoldingCanonical([], ROUTINE, [], COLLIDING.metadata);
    HoldingCanonical([ROUTINE], ROUTINE, [], NoMetadata);
  }

  // ------------------------------------------------------------ certificates

  const TOOL := Identity("x", "s")
  const EVERYWHERE := IntrospectionScope(["s"], ["s"])
  const CHECKED := CapabilityCheck("x", "s")

  function HonestCounts(normal: CanonicalSchemaSnapshot): DiscoveryCounts {
    DiscoveryCounts(map k | k in ALL_KINDS :: DiscoveredCount(EmittedObjects(normal, k), "x"),
                    map r | r in ALL_RELATIONS :: DiscoveredCount(EmittedRelations(normal, r), "x"))
  }

  /** The certificate of an honest discovery of a snapshot. */
  function Certificate(s: CanonicalSchemaSnapshot): CertifiedSchemaSnapshot {
    Assemble(s, TOOL, TOOL, EVERYWHERE, HonestCounts(Normalize(s)), [CHECKED])
  }

  lemma ShortText(c: char)
    requires !IsWhitespace(c) && !IsControl(c)
    ensures ProofTextOk([c]) && !Blank([c]) && ByteLength([c]) <= 4 && !HasControl([c])
  {
    Kept([c], 0);
    assert [c][1..] == [];
  }

  lemma HonestCountsAre(normal: CanonicalSchemaSnapshot)
    ensures Honest(HonestCounts(normal), normal)
  {
    hide EmittedObjects, EmittedRelations, ProofTextOk;
    ShortText('x');
    KindsListedOnce();
    RelationsListedOnce();
  }

  lemma OneScopeValue()
    ensures ScopeValuesOk(SortedSet(["s"], ByText))
  {
    hide SortedSet;
    ShortText('s');
    TextListsTwice(["s"]);
    TextSetNormal(["s"]);
    assert "s" in SortedSet(["s"], ByText);
  }

  lemma OneCheck()
    ensures ChecksOk(StableSort([CHECKED], CheckOrder))
  {
    hide StableSort, ProofTextOk;
    ShortText('x');
    ShortText('s');
    SortTwice([CHECKED], CheckOrder);
    StableSortKeeps([CHECKED], CheckOrder);
    var sorted := StableSort([CHECKED], CheckOrder);
    assert |sorted| == |multiset(sorted)| == |multiset([CHECKED])| == 1;
    assert sorted[0] in multiset(sorted);
  }

  lemma StaysCapable(s: CanonicalSchemaSnapshot)
    requires s.schema.capabilities == CAPABLE && s.schema.sourceKind == "s"
    ensures CapabilitiesOk(Normalize(s).schema)
  {
    hide StableSort, SortedSet, MapSeq;
    NothingSorted();
  }

  lemma NothingSorted()
    ensures SortedSet<string>([], ByText) == []
  {
  }

  lemma SampleCertified(s: CanonicalSchemaSnapshot)
    requires IsSample(s)
    ensures Verified(Certificate(s)) && Certificate(s).snapshot == Normalize(s)
  {
    hide CanonicalWellFormed, Normalize, CapabilitiesOk, ScopeValuesOk, ChecksOk, ProofTextOk, Honest, StableSort,
         HonestCounts, Verified;
    SampleWellFormed(s);
    StaysCapable(s);
    HonestCountsAre(Normalize(s));
    ShortText('x');
    ShortText('s');
    OneScopeValue();
    OneCheck();
    HonestIsCertified(s, TOOL, TOOL, EVERYWHERE, HonestCounts(Normalize(s)), [CHECKED]);
  }
}
