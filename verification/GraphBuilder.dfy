/** Writing a snapshot's graph into the store inside one transaction, and checking a certified
    snapshot's graph against its proof (graph_builder.rs). */
module GraphBuilder {
  import opened Wrappers
  import opened Lists
  import opened ObjectKeys
  import opened SchemaModel
  import opened SnapshotRules
  import opened SnapshotValidation
  import opened CanonicalRules
  import opened Certification
  import opened GraphModel
  import opened GraphStore
  import opened Projection
  import opened ProjectionCounts
  import opened ProjectionClosure
  import opened EdgeTexts

  // --------------------------------------------------------------------- rows

  /** The annotation of an object: of several the last, as a map collected from the list keeps. */
  function AnnotationFor(annotations: seq<ObjectAnnotation>, key: ObjectKey): Option<ObjectAnnotation> {
    if annotations == [] then None
    else
      var last := annotations[|annotations| - 1];
      if last.objectKey == key then Some(last) else AnnotationFor(annotations[..|annotations| - 1], key)
  }

  function NodeRowOf(snapshotKey: string, annotations: seq<ObjectAnnotation>, n: PlannedNode): NodeRecord {
    NodeRecord(snapshotKey, Print(n.key), n.nodeLabel, Some(n.name),
               NodePayload(n.content, AnnotationFor(annotations, n.key)))
  }

  function EdgeRowOf(snapshotKey: string, e: PlannedEdge): EdgeRecord {
    EdgeRecord(snapshotKey, EdgeKeyText(e), Print(e.from), Print(e.to), EdgeType(e.kind),
               match e.relationship case Some(r) => OfRelationship(r) case None => OfEdgeType(EdgeType(e.kind)))
  }

  function NodeRows(snapshotKey: string, s: CanonicalSchemaSnapshot): seq<NodeRecord> {
    MapSeq((n: PlannedNode) => NodeRowOf(snapshotKey, s.metadata.annotations, n), NodePlan(s))
  }

  function EdgeRows(snapshotKey: string, s: CanonicalSchemaSnapshot): seq<EdgeRecord> {
    MapSeq((e: PlannedEdge) => EdgeRowOf(snapshotKey, e), EdgePlan(s))
  }

  function RowNodeKey(row: NodeRecord): string { row.nodeKey }

  function RowEdgeKey(row: EdgeRecord): string { row.edgeKey }

  /** The graph that a list of node rows and a list of edge rows leave behind. */
  function Built(nodeRows: seq<NodeRecord>, edgeRows: seq<EdgeRecord>): Rows {
    Rows(Upserted(nodeRows, RowNodeKey), Upserted(edgeRows, RowEdgeKey))
  }

  /** The graph written for a snapshot. */
  function GraphOf(snapshotKey: string, s: CanonicalSchemaSnapshot): Rows {
    Built(NodeRows(snapshotKey, s), EdgeRows(snapshotKey, s))
  }

  function RecordOf(snapshotKey: string, capturedAt: int, schema: SchemaSnapshot,
                    payload: SnapshotPayload): SnapshotRecord {
    SnapshotRecord(snapshotKey, Some(schema.sourceKind + ":" + schema.connectionAlias), capturedAt, payload)
  }

  // ---------------------------------------------------------------- the proof

  datatype ProjectionCount = ProjectionCount(objects: nat, semanticRelationships: nat, graphEdges: nat)

  /** `certified_graph_projection_counts`. */
  function CertifiedGraphProjectionCounts(c: CertifiedSchemaSnapshot): ProjectionCount {
    var semantic := EmittedTotal(c.completeness.relationshipCounts);
    ProjectionCount(EmittedTotal(c.completeness.objectCounts), semantic,
                    semantic + SumOf(c.snapshot.schema.constraints, ForeignKeyColumns) + |c.snapshot.schema.triggers|)
  }

  /** The snapshots whose graph has as many edges as their proof promises. */
  predicate Projects(s: CanonicalSchemaSnapshot) { NothingSkipped(s.schema) && NoDuplicates(Texts(EdgePlan(s))) }

  lemma NodeKeysDistinct(s: CanonicalSchemaSnapshot)
    requires CanonicalWellFormed(s)
    ensures NoDuplicates(MapSeq(KeyOfNode, NodePlan(s))) && |NodePlan(s)| == |AllEntries(s)|
    ensures forall k :: k in KnownKeys(AllEntries(s)) <==> k in MapSeq(KeyOfNode, NodePlan(s))
  {
    NodePlanKeys(s);
    NoDuplicatesPermuted(MapSeq(KeyOfNode, NodePlan(s)), KeysOf(AllEntries(s)));
    SameElements(MapSeq(KeyOfNode, NodePlan(s)), KeysOf(AllEntries(s)));
    KnownAreKeys(AllEntries(s));
  }

  lemma KnownAreKeys(entries: seq<Entry>)
    ensures forall k :: k in KnownKeys(entries) <==> k in KeysOf(entries)
  {
    forall k ensures k in KnownKeys(entries) <==> k in KeysOf(entries) {
      if k in KeysOf(entries) {
        var i :| 0 <= i < |entries| && KeysOf(entries)[i] == k;
        assert entries[i] in entries;
      }
      if k in KnownKeys(entries) {
        var e :| e in entries && e.key == k;
        var i :| 0 <= i < |entries| && entries[i] == e;
        assert KeysOf(entries)[i] == k;
      }
    }
  }

  lemma NodeRowKeys(snapshotKey: string, s: CanonicalSchemaSnapshot)
    requires CanonicalWellFormed(s)
    ensures NoDuplicates(MapSeq(RowNodeKey, NodeRows(snapshotKey, s))) && |NodeRows(snapshotKey, s)| == |AllEntries(s)|
  {
    hide CanonicalWellFormed;
    NodeKeysDistinct(s);
    RowKeysDistinct(snapshotKey, s.metadata.annotations, NodePlan(s), NodeRows(snapshotKey, s));
  }

  lemma RowKeysDistinct(snapshotKey: string, annotations: seq<ObjectAnnotation>, plan: seq<PlannedNode>,
                        rows: seq<NodeRecord>)
    requires rows == MapSeq((n: PlannedNode) => NodeRowOf(snapshotKey, annotations, n), plan)
             && NoDuplicates(MapSeq(KeyOfNode, plan))
    ensures NoDuplicates(MapSeq(RowNodeKey, rows)) && |rows| == |plan|
  {
    var keys, texts := MapSeq(KeyOfNode, plan), MapSeq(RowNodeKey, rows);
    forall i, j | 0 <= i < j < |texts| ensures texts[i] != texts[j] {
      assert texts[i] == Print(keys[i]) && texts[j] == Print(keys[j]) && keys[i] != keys[j];
      PrintDiffers(keys[i], keys[j]);
    }
  }

  lemma PrintDiffers(a: ObjectKey, b: ObjectKey)
    requires a != b
    ensures Print(a) != Print(b)
  {
    if Print(a) == Print(b) { PrintInjective(a, b); }
  }

  lemma NodesWritten(snapshotKey: string, s: CanonicalSchemaSnapshot)
    requires CanonicalWellFormed(s)
    ensures |GraphOf(snapshotKey, s).nodes| == |AllEntries(s)|
  {
    hide CanonicalWellFormed;
    NodeRowKeys(snapshotKey, s);
    UpsertedSize(NodeRows(snapshotKey, s), RowNodeKey, Upserted(NodeRows(snapshotKey, s), RowNodeKey));
  }

  lemma EdgesWritten(snapshotKey: string, s: CanonicalSchemaSnapshot)
    requires CanonicalWellFormed(s)
    ensures |GraphOf(snapshotKey, s).edges| <= RelationTotal(s) + DoubledRelations(s.schema)
    ensures |GraphOf(snapshotKey, s).edges| == RelationTotal(s) + DoubledRelations(s.schema) <==> Projects(s)
  {
    hide CanonicalWellFormed;
    EdgePlanCount(s);
    SkippedIsZero(s.schema);
    var rows := EdgeRows(snapshotKey, s);
    assert MapSeq(RowEdgeKey, rows) == Texts(EdgePlan(s));
    UpsertedSize(rows, RowEdgeKey, Upserted(rows, RowEdgeKey));
  }

  /** For a verified snapshot the node count always is the proof's object total; the edge count is
      the promised one exactly when no dependency was skipped and no two edges share a text key. */
  lemma ProjectionMeetsProof(c: CertifiedSchemaSnapshot, snapshotKey: string)
    requires Verified(c)
    ensures |GraphOf(snapshotKey, c.snapshot).nodes| == CertifiedGraphProjectionCounts(c).objects
            == |AllEntries(c.snapshot)|
    ensures |GraphOf(snapshotKey, c.snapshot).edges| <= CertifiedGraphProjectionCounts(c).graphEdges
    ensures |GraphOf(snapshotKey, c.snapshot).edges| == CertifiedGraphProjectionCounts(c).graphEdges
            <==> Projects(c.snapshot)
  {
    VerifiedObjectTotal(c);
    VerifiedRelationTotal(c);
    NodesWritten(snapshotKey, c.snapshot);
    EdgesWritten(snapshotKey, c.snapshot);
  }

  /** No key contains '>' and no extension name '>' or ':', the characters that separate the parts of a text key. */
  predicate PlainNames(s: CanonicalSchemaSnapshot) {
    && (forall k :: k in KnownKeys(AllEntries(s)) ==> '>' !in Print(k))
    && (forall r :: r in s.metadata.relationships && r.kind.ExtensionRelation? ==>
          '>' !in r.kind.name && ':' !in r.kind.name)
  }

  /** Under plain names text keys never collide. */
  lemma PlainTextsDistinct(s: CanonicalSchemaSnapshot)
    requires CanonicalWellFormed(s) && PlainNames(s)
    ensures NoDuplicates(Texts(EdgePlan(s)))
  {
    hide CanonicalWellFormed;
    EdgePlanJoins(s);
    EdgePlanDistinct(s);
    EdgePlanConsistent(s);
    forall e | e in EdgePlan(s) ensures Unambiguous(e) && EdgeTexts.Consistent(e) {
      assert Joins(KnownKeys(AllEntries(s)), e);
    }
    TextsDistinct(EdgePlan(s));
  }

  /** Under plain names only a skipped dependency can make the counts differ. */
  lemma PlainNamesProject(s: CanonicalSchemaSnapshot)
    requires CanonicalWellFormed(s) && PlainNames(s)
    ensures Projects(s) <==> NothingSkipped(s.schema)
  {
    hide CanonicalWellFormed, PlainNames, NothingSkipped;
    PlainTextsDistinct(s);
  }

  lemma EdgePlanConsistent(s: CanonicalSchemaSnapshot)
    requires CanonicalWellFormed(s)
    ensures forall e :: e in EdgePlan(s) ==>
              EdgeTexts.Consistent(e) && (e.relationship.Some? ==> e.relationship.value in s.metadata.relationships)
  {
    hide CanonicalWellFormed;
    InKeyOrderReorders(s);
    CanonicalWellFormedReordered(InKeyOrder(s), s);
    SameElements(InKeyOrder(s).metadata.relationships, s.metadata.relationships);
    InOrderConsistent(InKeyOrder(s));
  }

  lemma InOrderConsistent(x: CanonicalSchemaSnapshot)
    requires CanonicalWellFormed(x)
    ensures forall e :: e in EdgesInOrder(x) ==>
              EdgeTexts.Consistent(e) && (e.relationship.Some? ==> e.relationship.value in x.metadata.relationships)
  {
    TypedStages(x.schema);
    ParentStage(x);
    PartsConsistent(TypedEdges(x.schema), FlatMap(x.metadata.objects, ParentEdges), x.metadata.relationships);
  }

  lemma PartsConsistent(typed: seq<PlannedEdge>, parents: seq<PlannedEdge>, relationships: seq<MetadataRelationship>)
    requires Staged(typed, 0, 8) && Staged(parents, 8, 9)
    ensures forall e :: e in typed + (parents + MapSeq(RelationshipEdge, relationships)) ==>
              EdgeTexts.Consistent(e) && (e.relationship.Some? ==> e.relationship.value in relationships)
  {
    RelatedConsistent(relationships);
  }

  lemma RelatedConsistent(relationships: seq<MetadataRelationship>)
    ensures forall e :: e in MapSeq(RelationshipEdge, relationships) ==>
            EdgeTexts.Consistent(e) && e.relationship.Some? && e.relationship.value in relationships
  {
    var edges := MapSeq(RelationshipEdge, relationships);
    forall i | 0 <= i < |edges| ensures EdgeTexts.Consistent(edges[i]) && edges[i].relationship.Some?
        && edges[i].relationship.value in relationships {
      assert edges[i] == RelationshipEdge(relationships[i]) && relationships[i] in relationships;
    }
  }

  // ------------------------------------------------------------------ writing

  /** The map the builder collects its annotations into. */
  method CollectAnnotations(annotations: seq<ObjectAnnotation>) returns (byKey: map<string, ObjectAnnotation>)
    ensures forall k :: (if Print(k) in byKey then Some(byKey[Print(k)]) else None) == AnnotationFor(annotations, k)
  {
    byKey := map[];
    for i := 0 to |annotations|
      invariant forall k :: (if Print(k) in byKey then Some(byKey[Print(k)])
                             else None) == AnnotationFor(annotations[..i], k)
    {
      var a := annotations[i];
      assert annotations[..i + 1][..i] == annotations[..i];
      forall k | Print(k) == Print(a.objectKey) ensures k == a.objectKey { PrintInjective(k, a.objectKey); }
      byKey := byKey[Print(a.objectKey) := a];
    }
    WholePrefix(annotations);
  }

  /** Two node tables agree on every other snapshot. */
  ghost predicate OtherNodesKept(before: map<string, map<string, NodeRecord>>,
                                 after: map<string, map<string, NodeRecord>>, snapshotKey: string) {
    forall k :: k != snapshotKey ==> NodesOf(after, k) == NodesOf(before, k)
  }

  ghost predicate OtherEdgesKept(before: map<string, map<string, EdgeRecord>>,
                                 after: map<string, map<string, EdgeRecord>>, snapshotKey: string) {
    forall k :: k != snapshotKey ==> EdgesOf(after, k) == EdgesOf(before, k)
  }

  /** The rows the builder writes for its nodes, annotated from the collected map. */
  method PrepareNodes(snapshotKey: string, listed: seq<ObjectAnnotation>, plan: seq<PlannedNode>)
    returns (rows: seq<NodeRecord>)
    ensures rows == MapSeq((n: PlannedNode) => NodeRowOf(snapshotKey, listed, n), plan)
  {
    var annotations := CollectAnnotations(listed);
    rows := [];
    for i := 0 to |plan|
      invariant rows == MapSeq((n: PlannedNode) => NodeRowOf(snapshotKey, listed, n), plan[..i])
    {
      var row := PrepareNode(snapshotKey, annotations, listed, plan[i]);
      PrefixLast(plan, i);
      MapSeqLast((n: PlannedNode) => NodeRowOf(snapshotKey, listed, n), plan[..i], plan[i]);
      rows := rows + [row];
    }
    WholePrefix(plan);
  }

  method PrepareNode(snapshotKey: string, annotations: map<string, ObjectAnnotation>,
                     ghost listed: seq<ObjectAnnotation>, n: PlannedNode) returns (row: NodeRecord)
    requires forall k :: (if Print(k) in annotations then Some(annotations[Print(k)])
                          else None) == AnnotationFor(listed, k)
    ensures row == NodeRowOf(snapshotKey, listed, n)
  {
    var annotation := if Print(n.key) in annotations then Some(annotations[Print(n.key)]) else None;
    row := NodeRecord(snapshotKey, Print(n.key), n.nodeLabel, Some(n.name), NodePayload(n.content, annotation));
  }

  /** Inserts nodes one after another and stops at the first statement that fails. */
  method WriteNodes(store: Store, snapshotKey: string, rows: seq<NodeRecord>) returns (ok: bool)
    requires store.Sound() && snapshotKey in store.snapshots && NodesOf(store.nodes, snapshotKey) == map[]
    requires forall row :: row in rows ==> row.snapshotKey == snapshotKey
    modifies store`nodes, store`clock
    ensures store.Sound() && old(store.clock) <= store.clock
    ensures ok ==> NodesOf(store.nodes, snapshotKey) == Upserted(rows, RowNodeKey)
    ensures OtherNodesKept(old(store.nodes), store.nodes, snapshotKey)
    ensures !ok ==> !store.Quiet(old(store.clock), store.clock)
  {
    for i := 0 to |rows|
      invariant store.Sound() && old(store.clock) <= store.clock
      invariant NodesOf(store.nodes, snapshotKey) == Upserted(rows[..i], RowNodeKey)
      invariant OtherNodesKept(old(store.nodes), store.nodes, snapshotKey)
    {
      assert rows[i] in rows;
      UpsertedLast(rows[..i], rows[i], RowNodeKey);
      PrefixLast(rows, i);
      var written := store.InsertNode(rows[i]);
      if !written { return false; }
    }
    WholePrefix(rows);
    return true;
  }

  /** Edge rows of one snapshot whose foreign keys are met. */
  ghost predicate EndsPresent(nodes: map<string, map<string, NodeRecord>>, snapshotKey: string, rows: seq<EdgeRecord>) {
    forall row :: row in rows ==>
      row.snapshotKey == snapshotKey && row.edgeFrom in NodesOf(nodes, snapshotKey)
      && row.edgeTo in NodesOf(nodes, snapshotKey)
  }

  method WriteEdges(store: Store, snapshotKey: string, rows: seq<EdgeRecord>) returns (ok: bool)
    requires store.Sound() && EdgesOf(store.edges, snapshotKey) == map[]
    requires EndsPresent(store.nodes, snapshotKey, rows)
    modifies store`edges, store`clock
    ensures store.Sound() && old(store.clock) <= store.clock
    ensures ok ==> EdgesOf(store.edges, snapshotKey) == Upserted(rows, RowEdgeKey)
    ensures OtherEdgesKept(old(store.edges), store.edges, snapshotKey)
    ensures !ok ==> !store.Quiet(old(store.clock), store.clock)
  {
    for i := 0 to |rows|
      invariant store.Sound() && old(store.clock) <= store.clock
      invariant EdgesOf(store.edges, snapshotKey) == Upserted(rows[..i], RowEdgeKey)
      invariant OtherEdgesKept(old(store.edges), store.edges, snapshotKey)
    {
      assert rows[i] in rows;
      UpsertedLast(rows[..i], rows[i], RowEdgeKey);
      PrefixLast(rows, i);
      var written := store.InsertEdge(rows[i]);
      if !written { return false; }
    }
    WholePrefix(rows);
    return true;
  }

  // --------------------------------------------------------- whole snapshots

  /** One snapshot's record and graph are new, everything else is as before. */
  ghost predicate Replaced(before: Tables, after: Tables, snapshotKey: string, record: SnapshotRecord, graph: Rows) {
    && after.snapshots == before.snapshots[snapshotKey := record]
    && RowsOf(after, snapshotKey) == graph
    && forall k :: k != snapshotKey ==> RowsOf(after, k) == RowsOf(before, k)
  }

  lemma KeyStored(snapshotKey: string, annotations: seq<ObjectAnnotation>, plan: seq<PlannedNode>,
                  rows: seq<NodeRecord>, key: ObjectKey)
    requires rows == MapSeq((n: PlannedNode) => NodeRowOf(snapshotKey, annotations, n), plan)
             && key in MapSeq(KeyOfNode, plan)
    ensures Print(key) in Upserted(rows, RowNodeKey)
  {
    var keys, texts := MapSeq(KeyOfNode, plan), MapSeq(RowNodeKey, rows);
    var i :| 0 <= i < |plan| && keys[i] == key;
    assert texts[i] == Print(key);
    assert Print(key) in texts;
    UpsertedHolds(rows, RowNodeKey, Upserted(rows, RowNodeKey));
  }

  /** Rows of one snapshot, with both ends of every edge among the nodes. */
  ghost predicate Writable(snapshotKey: string, nodeRows: seq<NodeRecord>, edgeRows: seq<EdgeRecord>) {
    && (forall row :: row in nodeRows ==> row.snapshotKey == snapshotKey)
    && (forall row :: row in edgeRows ==>
          row.snapshotKey == snapshotKey && row.edgeFrom in Upserted(nodeRows, RowNodeKey)
              && row.edgeTo in Upserted(nodeRows, RowNodeKey))
  }

  /** The foreign keys of every edge row of a well-formed snapshot are met by its node rows. */
  lemma RowsAreWritable(snapshotKey: string, s: CanonicalSchemaSnapshot)
    requires CanonicalWellFormed(s)
    ensures Writable(snapshotKey, NodeRows(snapshotKey, s), EdgeRows(snapshotKey, s))
  {
    hide CanonicalWellFormed;
    EdgePlanJoins(s);
    NodeKeysDistinct(s);
    forall k | k in KnownKeys(AllEntries(s)) ensures Print(k) in Upserted(NodeRows(snapshotKey, s), RowNodeKey) {
      KeyStored(snapshotKey, s.metadata.annotations, NodePlan(s), NodeRows(snapshotKey, s), k);
    }
    MappedRowsFit(snapshotKey, s.metadata.annotations, NodePlan(s), EdgePlan(s), KnownKeys(AllEntries(s)),
                  NodeRows(snapshotKey, s), EdgeRows(snapshotKey, s));
  }

  lemma MappedRowsFit(snapshotKey: string, annotations: seq<ObjectAnnotation>, nodePlan: seq<PlannedNode>,
                      edgePlan: seq<PlannedEdge>, known: set<ObjectKey>,
                      nodeRows: seq<NodeRecord>, edgeRows: seq<EdgeRecord>)
    requires nodeRows == MapSeq((n: PlannedNode) => NodeRowOf(snapshotKey, annotations, n), nodePlan)
    requires edgeRows == MapSeq((e: PlannedEdge) => EdgeRowOf(snapshotKey, e), edgePlan)
    requires AllJoin(known, edgePlan) && forall k :: k in known ==> Print(k) in Upserted(nodeRows, RowNodeKey)
    ensures Writable(snapshotKey, nodeRows, edgeRows)
  {
    forall i | 0 <= i < |nodeRows| ensures nodeRows[i].snapshotKey == snapshotKey {
      assert nodeRows[i] == NodeRowOf(snapshotKey, annotations, nodePlan[i]);
    }
    var table := Upserted(nodeRows, RowNodeKey);
    forall i | 0 <= i < |edgeRows|
      ensures edgeRows[i].snapshotKey == snapshotKey && edgeRows[i].edgeFrom in table && edgeRows[i].edgeTo in table
    {
      assert edgeRows[i] == EdgeRowOf(snapshotKey, edgePlan[i]);
      assert Joins(known, edgePlan[i]);
    }
  }

  /** Writes the nodes and then the edges of a snapshot that has none. */
  method WriteGraph(store: Store, snapshotKey: string, nodeRows: seq<NodeRecord>, edgeRows: seq<EdgeRecord>)
    returns (ok: bool)
    requires store.Sound() && Writable(snapshotKey, nodeRows, edgeRows)
    requires snapshotKey in store.snapshots && NodesOf(store.nodes, snapshotKey) == map[]
             && EdgesOf(store.edges, snapshotKey) == map[]
    modifies store`clock, store`nodes, store`edges
    ensures store.Sound() && old(store.clock) <= store.clock
    ensures ok ==>
              NodesOf(store.nodes, snapshotKey) == Upserted(nodeRows, RowNodeKey)
              && EdgesOf(store.edges, snapshotKey) == Upserted(edgeRows, RowEdgeKey)
    ensures OtherNodesKept(old(store.nodes), store.nodes, snapshotKey)
            && OtherEdgesKept(old(store.edges), store.edges, snapshotKey)
    ensures !ok ==> !store.Quiet(old(store.clock), store.clock)
  {
    ok := WriteNodes(store, snapshotKey, nodeRows);
    if ok {
      assert EndsPresent(store.nodes, snapshotKey, edgeRows);
      ok := WriteEdges(store, snapshotKey, edgeRows);
    }
  }

  /** `insert_schema_snapshot_graph_inner`: deletes the old generation and writes the new record and rows.
      Only the database itself can
      make it fail. */
  method ReplaceRows(store: Store, record: SnapshotRecord, nodeRows: seq<NodeRecord>, edgeRows: seq<EdgeRecord>)
    returns (ok: bool)
    requires store.Valid() && Writable(record.snapshotKey, nodeRows, edgeRows) && PayloadOk(record.payload)
    modifies store`clock, store`snapshots, store`nodes, store`edges
    ensures store.Valid() && old(store.clock) <= store.clock
    ensures ok ==> Replaced(old(store.Contents()), store.Contents(), record.snapshotKey, record,
                            Built(nodeRows, edgeRows))
    ensures !ok ==> !store.Quiet(old(store.clock), store.clock)
  {
    ghost var before := store.Contents();
    WithoutSnapshotIsLocal(before, record.snapshotKey);
    ok := store.DeleteSnapshot(record.snapshotKey);
    if !ok { return; }
    var inserted := store.InsertSnapshot(record);
    if inserted.Err? { return false; }
    ghost var emptied := store.Contents();
    SameTablesSameRows(emptied, WithoutSnapshot(before, record.snapshotKey));
    ok := WriteGraph(store, record.snapshotKey, nodeRows, edgeRows);
    if ok {
      GenerationReplaced(before, emptied, store.Contents(), record.snapshotKey, record, Built(nodeRows, edgeRows));
    }
  }

  lemma SameTablesSameRows(a: Tables, b: Tables)
    requires a.nodes == b.nodes && a.edges == b.edges
    ensures forall k :: RowsOf(a, k) == RowsOf(b, k)
  {
  }

  lemma GenerationReplaced(before: Tables, emptied: Tables, after: Tables, snapshotKey: string, record: SnapshotRecord,
                           graph: Rows)
    requires emptied.snapshots == (before.snapshots - {snapshotKey})[snapshotKey := record] == after.snapshots
    requires forall k :: k != snapshotKey ==> RowsOf(emptied, k) == RowsOf(before, k)
    requires OtherNodesKept(emptied.nodes, after.nodes, snapshotKey)
             && OtherEdgesKept(emptied.edges, after.edges, snapshotKey)
    requires RowsOf(after, snapshotKey) == graph
    ensures Replaced(before, after, snapshotKey, record, graph)
  {
    forall k | k != snapshotKey ensures RowsOf(after, k) == RowsOf(before, k) {
      assert RowsOf(after, k) == RowsOf(emptied, k);
    }
    RemovedThenSet(before.snapshots, snapshotKey, record);
  }

  lemma RemovedThenSet<K, V>(m: map<K, V>, k: K, v: V)
    ensures (m - {k})[k := v] == m[k := v]
  {
  }

  // --------------------------------------------------------------- the two ways in

  /** The transaction around replacing one snapshot's rows. */
  method ReplaceInTransaction(store: Store, record: SnapshotRecord, nodeRows: seq<NodeRecord>,
                              edgeRows: seq<EdgeRecord>) returns (ok: bool)
    requires store.Valid() && store.saved.None? && Writable(record.snapshotKey, nodeRows, edgeRows)
             && PayloadOk(record.payload)
    modifies store
    ensures store.Valid() && store.saved.None? && old(store.clock) <= store.clock
    ensures ok ==> Replaced(old(store.Contents()), store.Contents(), record.snapshotKey, record,
                            Built(nodeRows, edgeRows))
    ensures !ok ==> store.Contents() == old(store.Contents()) && !store.Quiet(old(store.clock), store.clock)
  {
    ok := store.Begin();
    if !ok { return; }
    ok := ReplaceRows(store, record, nodeRows, edgeRows);
    if ok {
      ok := store.Commit();
      if ok { return; }
    }
    store.Rollback();
  }

  /** `insert_schema_snapshot_graph`: validates, then writes in one transaction. */
  method InsertSchemaSnapshotGraph(store: Store, snapshotKey: string, capturedAt: int, snapshot: SchemaSnapshot)
    returns (r: Result<(), StoreError>)
    requires store.Valid() && store.saved.None?
    modifies store
    ensures store.Valid() && store.saved.None? && old(store.clock) <= store.clock
    ensures r.Ok? ==> WellFormed(snapshot) && Replaced(old(store.Contents()), store.Contents(), snapshotKey,
                        RecordOf(snapshotKey, capturedAt, snapshot, Legacy(snapshot)),
                        GraphOf(snapshotKey, CanonicalSchemaSnapshot(snapshot, NoMetadata)))
    ensures r.Err? ==> store.Contents() == old(store.Contents())
    ensures r == Err(InvalidSnapshot) <==> !WellFormed(snapshot)
    ensures store.Quiet(old(store.clock), store.clock) ==> (r.Ok? <==> WellFormed(snapshot))
  {
    var issues := ValidateSchemaSnapshot(snapshot);
    if issues != [] { return Err(InvalidSnapshot); }
    PlainWellFormed(snapshot);
    var record := RecordOf(snapshotKey, capturedAt, snapshot, Legacy(snapshot));
    var s := CanonicalSchemaSnapshot(snapshot, NoMetadata);
    RowsAreWritable(snapshotKey, s);
    var nodeRows := PrepareNodes(snapshotKey, s.metadata.annotations, NodePlan(s));
    var ok := ReplaceInTransaction(store, record, nodeRows, EdgeRows(snapshotKey, s));
    return if ok then Ok(()) else Err(Storage);
  }

  /** `verify_projection_counts`. */
  method VerifyProjectionCounts(store: Store, snapshotKey: string, expected: ProjectionCount)
    returns (r: Result<(), StoreError>)
    requires store.Sound()
    modifies store`clock
    ensures store.Sound() && old(store.clock) <= store.clock
    ensures r.Ok? ==>
              |RowsOf(store.Contents(), snapshotKey).nodes| == expected.objects
              && |RowsOf(store.Contents(), snapshotKey).edges| == expected.graphEdges
    ensures r.Err? && r.error.ProjectionMismatch? ==>
              && r.error == ProjectionMismatch(expected.objects, |RowsOf(store.Contents(), snapshotKey).nodes|,
                                               expected.graphEdges, |RowsOf(store.Contents(), snapshotKey).edges|)
              && !(r.error.actualNodes == expected.objects && r.error.actualEdges == expected.graphEdges)
    ensures r.Err? && !r.error.ProjectionMismatch? ==> r.error == Storage && !store.Quiet(old(store.clock), store.clock)
  {
    var counts := store.CountRows(snapshotKey);
    if counts.None? { return Err(Storage); }
    var (actualNodes, actualEdges) := counts.value;
    if actualNodes != expected.objects || actualEdges != expected.graphEdges {
      return Err(ProjectionMismatch(expected.objects, actualNodes, expected.graphEdges, actualEdges));
    }
    return Ok(());
  }

  /** How writing a verified snapshot can end. */
  ghost predicate CertifiedOutcome(c: CertifiedSchemaSnapshot, r: Result<(), StoreError>, quiet: bool) {
    match r
    case Ok(_) => Projects(c.snapshot)
    case Err(Storage) => !quiet
    case Err(ProjectionMismatch(expectedNodes, actualNodes, expectedEdges, actualEdges)) =>
      && !Projects(c.snapshot) && actualNodes == expectedNodes == |AllEntries(c.snapshot)|
      && actualEdges < expectedEdges == CertifiedGraphProjectionCounts(c).graphEdges
    case Err(_) => false
  }

  /** How writing rows and counting them can end. */
  ghost predicate CountOutcome(graph: Rows, expected: ProjectionCount, r: Result<(), StoreError>, quiet: bool) {
    match r
    case Ok(_) => |graph.nodes| == expected.objects && |graph.edges| == expected.graphEdges
    case Err(Storage) => !quiet
    case Err(ProjectionMismatch(expectedNodes, actualNodes, expectedEdges, actualEdges)) =>
      && expectedNodes == expected.objects && expectedEdges == expected.graphEdges
      && actualNodes == |graph.nodes| && actualEdges == |graph.edges|
      && !(actualNodes == expectedNodes && actualEdges == expectedEdges)
    case Err(_) => false
  }

  lemma CountsDecide(c: CertifiedSchemaSnapshot, snapshotKey: string, r: Result<(), StoreError>, quiet: bool)
    requires Verified(c) && CountOutcome(GraphOf(snapshotKey, c.snapshot), CertifiedGraphProjectionCounts(c), r, quiet)
    ensures CertifiedOutcome(c, r, quiet)
  {
    ProjectionMeetsProof(c, snapshotKey);
  }

  /** Writing and counting, inside the transaction. */
  method ReplaceAndCount(store: Store, record: SnapshotRecord, nodeRows: seq<NodeRecord>, edgeRows: seq<EdgeRecord>,
                         expected: ProjectionCount)
    returns (r: Result<(), StoreError>)
    requires store.Valid() && Writable(record.snapshotKey, nodeRows, edgeRows) && PayloadOk(record.payload)
    modifies store`clock, store`snapshots, store`nodes, store`edges
    ensures store.Valid() && old(store.clock) <= store.clock
    ensures r.Ok? ==> Replaced(old(store.Contents()), store.Contents(), record.snapshotKey, record,
                               Built(nodeRows, edgeRows))
    ensures CountOutcome(Built(nodeRows, edgeRows), expected, r, store.Quiet(old(store.clock), store.clock))
  {
    var written := ReplaceRows(store, record, nodeRows, edgeRows);
    if !written { return Err(Storage); }
    r := VerifyProjectionCounts(store, record.snapshotKey, expected);
  }

  method CountInTransaction(store: Store, record: SnapshotRecord, nodeRows: seq<NodeRecord>, edgeRows: seq<EdgeRecord>,
                            expected: ProjectionCount)
    returns (r: Result<(), StoreError>)
    requires store.Valid() && store.saved.None? && Writable(record.snapshotKey, nodeRows, edgeRows)
             && PayloadOk(record.payload)
    modifies store
    ensures store.Valid() && store.saved.None? && old(store.clock) <= store.clock
    ensures r.Ok? ==> Replaced(old(store.Contents()), store.Contents(), record.snapshotKey, record,
                               Built(nodeRows, edgeRows))
    ensures r.Err? ==> store.Contents() == old(store.Contents())
    ensures CountOutcome(Built(nodeRows, edgeRows), expected, r, store.Quiet(old(store.clock), store.clock))
  {
    var begun := store.Begin();
    if !begun { return Err(Storage); }
    r := ReplaceAndCount(store, record, nodeRows, edgeRows, expected);
    if r.Ok? {
      var committed := store.Commit();
      if committed { return; }
      r := Err(Storage);
    }
    store.Rollback();
  }

  /** `insert_certified_schema_snapshot_graph`: verifies, then writes and counts in one transaction.
      Unless the database fails, it ends in a projection mismatch exactly when some dependency was
      skipped or two edges share a text key, and then only edges are missing. */
  method InsertCertifiedSchemaSnapshotGraph(store: Store, snapshotKey: string, capturedAt: int,
                                            c: CertifiedSchemaSnapshot)
    returns (r: Result<(), StoreError>)
    requires store.Valid() && store.saved.None?
    modifies store
    ensures store.Valid() && store.saved.None? && old(store.clock) <= store.clock
    ensures r.Ok? ==> Replaced(old(store.Contents()), store.Contents(), snapshotKey,
                        RecordOf(snapshotKey, capturedAt, c.snapshot.schema, Versioned(c)),
                        GraphOf(snapshotKey, c.snapshot))
    ensures r.Err? ==> store.Contents() == old(store.Contents())
    ensures r == Err(InvalidCertification) <==> !Verified(c)
    ensures Verified(c) ==> CertifiedOutcome(c, r, store.Quiet(old(store.clock), store.clock))
  {
    var accepted := VerifyCertifiedSchemaSnapshot(c);
    if !accepted { return Err(InvalidCertification); }
    RowsAreWritable(snapshotKey, c.snapshot);
    var nodeRows := PrepareNodes(snapshotKey, c.snapshot.metadata.annotations, NodePlan(c.snapshot));
    r := CountInTransaction(store, RecordOf(snapshotKey, capturedAt, c.snapshot.schema, Versioned(c)), nodeRows,
                            EdgeRows(snapshotKey, c.snapshot),
                            CertifiedGraphProjectionCounts(c));
    CountsDecide(c, snapshotKey, r, store.Quiet(old(store.clock), store.clock));
  }
}
