/** From the store to the two descriptions: what a run of index attempts leaves under a key is
    described alike both ways (graph_store.rs, graph_builder.rs and crates/database-memory-cli/src/metadata.rs). */
module StoredDescriptions {
  import opened Wrappers
  import opened Lists
  import opened ObjectKeys
  import opened SchemaModel
  import opened SnapshotRules
  import opened CanonicalRules
  import opened Canonical
  import opened Certification
  import opened GraphModel
  import opened Projection
  import opened EdgeTexts
  import opened AliasDiff
  import opened GraphStore
  import opened GraphBuilder
  import opened IndexRuns
  import opened TableDescriptions
  import opened GraphDescription
  import opened Inventory
  import opened InventoryFacts
  import opened InventoryTheorem
  import opened StoredRelations
  import opened StoredObjects
  import opened DescriptionContents
  import opened DependentContents

  lemma CertifiedParts(c: CertifiedSchemaSnapshot)
    requires Verified(c) && Projects(c.snapshot)
    ensures CanonicalWellFormed(c.snapshot) && Normalize(c.snapshot) == c.snapshot
            && NoDuplicates(Texts(EdgePlan(c.snapshot)))
  {
    hide CanonicalWellFormed, Normalize, EdgePlan, NoDuplicates;
  }

  /** A certified snapshot that projects is stored as the descriptions expect it. */
  lemma CertifiedIsIndexed(c: CertifiedSchemaSnapshot, snapshotKey: string, g: Rows)
    requires Verified(c) && Projects(c.snapshot) && g == GraphOf(snapshotKey, c.snapshot)
    ensures Keyed(g) && Indexed(g, snapshotKey, c.snapshot)
  {
    hide Verified, Projects, CanonicalWellFormed, Normalize, EdgePlan, NoDuplicates, GraphOf;
    CertifiedParts(c);
    RowsAreKeyed(snapshotKey, c.snapshot);
  }

  /** After a run, the graph of the last successful attempt for a key is one the walk describes by its snapshot. */
  lemma LastSuccessIsIndexed(start: Holding, attempts: seq<Attempt>, outcomes: seq<bool>, last: nat, held: Rows)
    requires |outcomes| == |attempts| && Fair(attempts, outcomes, false) && last < |attempts| && outcomes[last]
    requires forall i :: last < i < |attempts| && attempts[i].snapshotKey == attempts[last].snapshotKey ==> !outcomes[i]
    requires attempts[last].IndexCertified?
    requires held == HeldAfter(start, Writes(attempts, outcomes), attempts[last].snapshotKey).graph
    ensures Keyed(held) && Indexed(held, attempts[last].snapshotKey, attempts[last].certified.snapshot)
  {
    hide Verified, Projects, Indexed, GraphOf, HeldAfter, Writes;
    LastSuccessDecides(start, attempts, outcomes, last);
    assert Acceptable(attempts[last]);
    CertifiedIsIndexed(attempts[last].certified, attempts[last].snapshotKey, held);
  }

  /** The graph says of every object and of any two objects what the snapshot does, and nothing else. */
  ghost predicate SaysAll(snapshotKey: string, s: CanonicalSchemaSnapshot, g: Rows) {
    TellsOf(g, s) && forall row :: row in g.nodes.Values <==> NodeSaid(snapshotKey, s, row)
  }

  lemma CertifiedSaysAll(snapshotKey: string, c: CertifiedSchemaSnapshot)
    requires Verified(c) && Projects(c.snapshot)
    ensures SaysAll(snapshotKey, c.snapshot, GraphOf(snapshotKey, c.snapshot))
  {
    hide Verified, Projects, GraphOf, TellsOf, NodeSaid, CanonicalWellFormed, EdgePlan, NoDuplicates, Normalize;
    CertifiedParts(c);
    CertifiedGraphTells(snapshotKey, c);
    StoredNodesTell(snapshotKey, c.snapshot);
  }

  /** After any run the graph held for a key says all that the last certificate indexed for it does. */
  lemma LastSuccessSaysAll(start: Holding, attempts: seq<Attempt>, outcomes: seq<bool>, last: nat, held: Rows)
    requires |outcomes| == |attempts| && Fair(attempts, outcomes, false) && last < |attempts| && outcomes[last]
    requires forall i :: last < i < |attempts| && attempts[i].snapshotKey == attempts[last].snapshotKey ==> !outcomes[i]
    requires attempts[last].IndexCertified?
    requires held == HeldAfter(start, Writes(attempts, outcomes), attempts[last].snapshotKey).graph
    ensures SaysAll(attempts[last].snapshotKey, attempts[last].certified.snapshot, held)
  {
    hide Verified, Projects, SaysAll, GraphOf, HeldAfter, Writes;
    LastSuccessDecides(start, attempts, outcomes, last);
    assert Acceptable(attempts[last]);
    CertifiedSaysAll(attempts[last].snapshotKey, attempts[last].certified);
  }

  /** Builds the index and describes a table both ways. */
  method DescribeStored(g: Graph, snapshotKey: string, s: CanonicalSchemaSnapshot, table: TableObject)
    returns (walked: Option<TableDescription>, indexed: Option<TableDescription>)
    requires Indexed(g, snapshotKey, s) && table in s.schema.tables
    ensures indexed == Some(IndexedDescription(snapshotKey, s.schema, table))
    ensures walked == indexed <==> Recognised(s.schema, table)
    ensures !Rereadable(s.schema, Print(table.key)) ==> walked.None?
    ensures indexed.Some? && Tells(indexed.value, s.schema, table)
    ensures indexed.value.snapshotKey == snapshotKey && indexed.value.tableName == table.name
    ensures TellsDependents(indexed.value.dependents, s.schema, table.key)
    ensures walked.Some? ==> Tells(walked.value, s.schema, table)
  {
    hide Indexed, CanonicalWellFormed, WellFormed, Normalize, GraphOf, Recognised, Rereadable, IndexedDescription,
         Tells, TellsDependents, Described;
    var index := new InventoryDescriptionIndex(s.schema);
    var found;
    walked, found := DescribeBothWays(g, snapshotKey, s, index, table);
    indexed := Some(found);
    BothTell(g, snapshotKey, s, table);
    IndexedParts(g, snapshotKey, s);
    SchemaPart(s);
    IndexedDependents(snapshotKey, s.schema, table);
  }

  lemma OkMeansProjects(c: CertifiedSchemaSnapshot, r: Result<(), StoreError>, quiet: bool)
    requires Verified(c) && CertifiedOutcome(c, r, quiet) && r.Ok?
    ensures Projects(c.snapshot)
  {
    hide Verified, Projects;
  }

  /** Indexes a certified snapshot and describes one of its tables both ways: once it is stored, the
      walk over the store and the inventory index give the same description exactly when the walk
      recognises the table and its dependents by their keys. */
  method IndexAndDescribe(store: Store, snapshotKey: string, capturedAt: int, c: CertifiedSchemaSnapshot,
                          table: TableObject)
    returns (r: Result<(), StoreError>, walked: Option<TableDescription>, indexed: Option<TableDescription>)
    requires store.Valid() && store.saved.None? && table in c.snapshot.schema.tables
    modifies store
    ensures store.Valid() && store.saved.None?
    ensures r.Ok? ==> indexed == Some(IndexedDescription(snapshotKey, c.snapshot.schema, table))
    ensures r.Ok? ==> (walked == indexed <==> Recognised(c.snapshot.schema, table))
    ensures r.Ok? ==> SaysAll(snapshotKey, c.snapshot, RowsOf(store.Contents(), snapshotKey))
    ensures r.Ok? ==> indexed.Some? && Tells(indexed.value, c.snapshot.schema, table)
    ensures r.Ok? ==> indexed.value.tableName == table.name
                      && TellsDependents(indexed.value.dependents, c.snapshot.schema, table.key)
    ensures r.Ok? && walked.Some? ==> Tells(walked.value, c.snapshot.schema, table)
    ensures r.Err? ==> walked.None? && indexed.None? && store.Contents() == old(store.Contents())
  {
    hide SaysAll, Tells, TellsDependents, Verified, Projects, Indexed, CertifiedOutcome, Replaced, Keyed, Recognised,
        Rereadable, IndexedDescription;
    walked, indexed := None, None;
    r := InsertCertifiedSchemaSnapshotGraph(store, snapshotKey, capturedAt, c);
    if r.Ok? {
      OkMeansProjects(c, r, store.Quiet(old(store.clock), store.clock));
      var g := RowsOf(store.Contents(), snapshotKey);
      CertifiedIsIndexed(c, snapshotKey, g);
      CertifiedSaysAll(snapshotKey, c);
      walked, indexed := DescribeStored(g, snapshotKey, c.snapshot, table);
    }
  }
}
