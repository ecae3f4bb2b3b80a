/** A certified snapshot with a routine without arguments: the walk cannot describe the table the routine
    reads, and the diff shows the routine under another alias (graph_builder.rs, schema_diff.rs and
    crates/database-memory-cli/src/metadata.rs). */
module EmptySignatures {
  import opened Wrappers
  import opened Lists
  import opened Ordering
  import opened ObjectKeys
  import opened SchemaModel
  import opened TextRules
  import opened SnapshotRules
  import opened CanonicalRules
  import opened Canonical
  import opened Certification
  import opened NormalForms
  import opened SampleSnapshots
  import opened GraphModel
  import opened EdgeFetch
  import opened Projection
  import opened ProjectionCounts
  import opened EdgeTexts
  import opened GraphBuilder
  import opened ProjectionMismatches
  import opened TableDescriptions
  import opened GraphDescription
  import opened InventoryFacts
  import opened InventoryTheorem
  import opened DescriptionConditions
  import opened StoredDescriptions
  import opened SchemaDiff
  import opened BoundedDiff
  import opened AliasRename
  import opened AliasDiff
  import opened AliasValidity
  import opened AliasExactness

  const READER := RoutineReading(UNSIGNED_ROUTINE, [TABLE])

  lemma NormalContents(n: CanonicalSchemaSnapshot)
    requires n == Normalize(UNSIGNED)
    ensures FOO in n.schema.tables && NormalRoutine(READER) in n.schema.routines
            && TABLE in NormalRoutine(READER).dependsOn
    ensures n.metadata.relationships == [] && n.schema.constraints == []
            && n.schema.connectionAlias == "s" && n.schema.database.key == SOURCE
  {
    hide SortedSet;
    assert UNSIGNED.schema.tables == [FOO] && UNSIGNED.schema.routines == [READER];
    assert StableSort([FOO], TableOrder) == [FOO];
    assert StableSort([READER], RoutineOrder) == [READER];
    assert n.schema.routines[0] == NormalRoutine(READER);
    KeySetNormal([TABLE]);
  }

  lemma UnsignedNormal(n: CanonicalSchemaSnapshot)
    requires n == Normalize(UNSIGNED)
    ensures CanonicalWellFormed(n) && KnownKeys(AllEntries(n)) == Known(UNSIGNED_ROUTINE)
  {
    hide CanonicalWellFormed, Normalize, KnownKeys, AllEntries;
    UnsignedWellFormed();
    NormalizeKeepsWellFormed(UNSIGNED);
  }

  lemma KnownAreSix(k: ObjectKey)
    requires k in Known(UNSIGNED_ROUTINE)
    ensures '>' !in Print(k)
  {
    hide Print;
    PrintKeeps(k, '>');
  }

  /** The certificate verifies and its graph has every edge the proof promises. */
  lemma UnsignedIsStored(c: CertifiedSchemaSnapshot)
    requires c == Certificate(UNSIGNED)
    ensures Verified(c) && PlainNames(c.snapshot) && Projects(c.snapshot)
  {
    hide CanonicalWellFormed, Verified, Projects, Certificate, Normalize, KnownKeys, AllEntries, Print, Known,
         NothingSkipped;
    var n := c.snapshot;
    SampleCertified(UNSIGNED);
    UnsignedNormal(n);
    NormalContents(n);
    forall k | k in Known(UNSIGNED_ROUTINE) ensures '>' !in Print(k) { KnownAreSix(k); }
    PlainNamesProject(n);
    NormalSkips(UNSIGNED);
    UnsignedSkipsNothing();
  }

  lemma UnsignedSkipsNothing()
    ensures NothingSkipped(UNSIGNED.schema)
  {
  }

  lemma ReaderIsUnnamed(n: CanonicalSchemaSnapshot)
    requires n == Normalize(UNSIGNED)
    ensures !DependentsNamed(n.schema, TABLE)
  {
    hide Normalize;
    NormalContents(n);
    var r := NormalRoutine(READER);
    assert ReadsAs(n.schema, TABLE, TABLE);
    assert Reads(n.schema, r.dependsOn, TABLE) && r.key.subObject == Some([]);
  }

  /** The snapshot is certified and stored, and the walk cannot describe the table although the index can. */
  lemma WalkMissesTable(c: CertifiedSchemaSnapshot, snapshotKey: string, g: Graph)
    requires c == Certificate(UNSIGNED) && g == GraphOf(snapshotKey, c.snapshot)
    ensures Verified(c) && Projects(c.snapshot) && FOO in c.snapshot.schema.tables
    ensures Described(g, snapshotKey, Print(TABLE)).None?
  {
    hide Verified, Projects, Certificate, Normalize, GraphOf, Described, Indexed, DependentsNamed;
    SampleCertified(UNSIGNED);
    UnsignedIsStored(c);
    NormalContents(c.snapshot);
    ReaderIsUnnamed(c.snapshot);
    CertifiedIsIndexed(c, snapshotKey, g);
    DescriptionsAgreeWhen(g, snapshotKey, c.snapshot, FOO);
  }

  lemma RoutineIsKnown(n: CanonicalSchemaSnapshot)
    requires n == Normalize(UNSIGNED)
    ensures UNSIGNED_ROUTINE in KnownKeys(AllEntries(n)) && [] in Parts(UNSIGNED_ROUTINE) && !NoEmptyParts(n)
  {
    hide CanonicalWellFormed, Normalize, KnownKeys, AllEntries;
    UnsignedNormal(n);
    assert Parts(UNSIGNED_ROUTINE)[6] == [];
  }

  /** Under any other plain alias the comparison reports the routine as removed, although nothing but the
      alias differs. */
  lemma AliasShowsRoutine(n: CanonicalSchemaSnapshot, k1: string, k2: string, alias: string, g: Graph, h: Graph)
    requires g == GraphOf(k1, n) && h == GraphOf(k2, Renamed(n, alias))
    requires n == Normalize(UNSIGNED) && !Blank(alias) && '>' !in alias && alias != "s"
    ensures CanonicalWellFormed(n) && CanonicalWellFormed(Renamed(n, alias))
    ensures NoDuplicates(Texts(EdgePlan(n))) && NoDuplicates(Texts(EdgePlan(Renamed(n, alias))))
    ensures Print(UNSIGNED_ROUTINE) in NodesByComparable(g) && Print(UNSIGNED_ROUTINE) !in NodesByComparable(h)
  {
    hide CanonicalWellFormed, Normalize, KnownKeys, AllEntries, Renamed, GraphOf, NoEmptyParts, Print, PlainNames,
         Blank, NodesByComparable, EdgePlan, Texts, Parts, Certificate, Verified, Projects, NoDuplicates;
    SampleCertified(UNSIGNED);
    UnsignedIsStored(Certificate(UNSIGNED));
    UnsignedNormal(n);
    NormalContents(n);
    RoutineIsKnown(n);
    RenamedWellFormed(n, alias);
    PlainRenamed(n, alias);
    PlainTextsDistinct(n);
    PlainTextsDistinct(Renamed(n, alias));
    EmptyPartShows(k1, k2, n, alias, g, h, UNSIGNED_ROUTINE);
  }

  /** So the diff that is built counts a difference. */
  lemma AliasCountsRoutine(stored: map<string, Graph>, k1: string, k2: string, n: CanonicalSchemaSnapshot,
                           alias: string, depth: nat, limit: Budget, d: Diff)
    requires k1 in stored && k2 in stored && IsDiff(stored, k1, k2, depth, limit, d)
    requires stored[k1] == GraphOf(k1, n) && stored[k2] == GraphOf(k2, Renamed(n, alias))
    requires n == Normalize(UNSIGNED) && !Blank(alias) && '>' !in alias && alias != "s"
    ensures d.counts != Counts(0, 0, 0, 0, 0, 0)
  {
    hide CanonicalWellFormed, Normalize, KnownKeys, AllEntries, Renamed, GraphOf, NoEmptyParts, IsDiff, Print,
         NodesByComparable, EdgePlan, Texts, Parts, NoDuplicates, Blank;
    NormalContents(n);
    RoutineIsKnown(n);
    AliasShowsRoutine(n, k1, k2, alias, stored[k1], stored[k2]);
    AliasDiffWhen(stored, k1, k2, n, alias, depth, limit, d);
  }
}
