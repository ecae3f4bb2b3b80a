/** The graph store: three tables joined by foreign keys that cascade on deletion, upserts, and
    transactions (graph_store.rs). */
module GraphStore {
  import opened Wrappers
  import opened SchemaModel
  import opened Certification
  import opened GraphModel

  /** A stored payload: with a contract version it must hold a certified snapshot. */
  datatype SnapshotPayload = Legacy(snapshot: SchemaSnapshot) | Versioned(certified: CertifiedSchemaSnapshot)

  datatype SnapshotRecord = SnapshotRecord(snapshotKey: string, source: Option<string>, capturedAt: int,
                                           payload: SnapshotPayload)

  /** The three tables; nodes and edges are indexed by their composite primary keys, snapshot first. */
  datatype Tables = Tables(
    snapshots: map<string, SnapshotRecord>,
    nodes: map<string, map<string, NodeRecord>>,
    edges: map<string, map<string, EdgeRecord>>)

  datatype StoreError =
    | Storage
    | InvalidSnapshot
    | InvalidCertification
    | ProjectionMismatch(expectedNodes: nat, actualNodes: nat, expectedEdges: nat, actualEdges: nat)

  ghost predicate PayloadOk(payload: SnapshotPayload) { payload.Versioned? ==> Verified(payload.certified) }

  function NodesOf(nodes: map<string, map<string, NodeRecord>>, snapshotKey: string): map<string, NodeRecord> {
    if snapshotKey in nodes then nodes[snapshotKey] else map[]
  }

  function EdgesOf(edges: map<string, map<string, EdgeRecord>>, snapshotKey: string): map<string, EdgeRecord> {
    if snapshotKey in edges then edges[snapshotKey] else map[]
  }

  /** The rows of one snapshot. */
  function RowsOf(t: Tables, snapshotKey: string): Rows {
    Rows(NodesOf(t.nodes, snapshotKey), EdgesOf(t.edges, snapshotKey))
  }

  /** Rows lie under their primary keys and their foreign keys are met: nodes need their snapshot,
      edges both their ends. */
  ghost predicate RowsLinked(snapshotKey: string, present: bool, rows: Rows) {
    && (forall k :: k in rows.nodes ==>
         rows.nodes[k].snapshotKey == snapshotKey && rows.nodes[k].nodeKey == k && present)
    && (forall k :: k in rows.edges ==> EdgeLinked(snapshotKey, k, rows.edges[k], rows.nodes))
  }

  predicate EdgeLinked(snapshotKey: string, key: string, edge: EdgeRecord, nodes: map<string, NodeRecord>) {
    edge.snapshotKey == snapshotKey && edge.edgeKey == key && edge.edgeFrom in nodes && edge.edgeTo in nodes
  }

  ghost predicate Linked(t: Tables) {
    && (forall k :: k in t.snapshots ==> t.snapshots[k].snapshotKey == k)
    && (forall k :: RowsLinked(k, k in t.snapshots, RowsOf(t, k)))
  }

  /** Every versioned payload verifies. */
  ghost predicate PayloadsOk(snapshots: map<string, SnapshotRecord>) {
    forall k :: k in snapshots ==> PayloadOk(snapshots[k].payload)
  }

  ghost predicate Consistent(t: Tables) { Linked(t) && PayloadsOk(t.snapshots) }

  /** The rows of a snapshot form a graph, closed over its nodes, and are none when it is not stored. */
  lemma RowsAreClosed(t: Tables, snapshotKey: string)
    requires Linked(t)
    ensures Keyed(RowsOf(t, snapshotKey))
    ensures forall k :: k in RowsOf(t, snapshotKey).edges ==>
              && RowsOf(t, snapshotKey).edges[k].edgeFrom in RowsOf(t, snapshotKey).nodes
              && RowsOf(t, snapshotKey).edges[k].edgeTo in RowsOf(t, snapshotKey).nodes
    ensures snapshotKey !in t.snapshots ==> RowsOf(t, snapshotKey) == Rows(map[], map[])
  {
    assert RowsLinked(snapshotKey, snapshotKey in t.snapshots, RowsOf(t, snapshotKey));
    if snapshotKey !in t.snapshots {
      assert RowsOf(t, snapshotKey).nodes == map[];
      assert RowsOf(t, snapshotKey).edges == map[];
    }
  }

  // -------------------------------------------------------------- deletions

  /** Edges lose their row when either end does. */
  function Cascaded(nodes: map<string, NodeRecord>, edges: map<string, EdgeRecord>): map<string, EdgeRecord> {
    map k | k in edges && edges[k].edgeFrom in nodes && edges[k].edgeTo in nodes :: edges[k]
  }

  function WithRows(t: Tables, snapshotKey: string, rows: Rows): Tables {
    t.(nodes := t.nodes[snapshotKey := rows.nodes], edges := t.edges[snapshotKey := rows.edges])
  }

  lemma WithRowsLinked(t: Tables, snapshotKey: string, rows: Rows)
    requires Linked(t) && RowsLinked(snapshotKey, snapshotKey in t.snapshots, rows)
    ensures Linked(WithRows(t, snapshotKey, rows))
    ensures forall k :: RowsOf(WithRows(t, snapshotKey, rows), k) == if k == snapshotKey then rows else RowsOf(t, k)
  {
    forall k ensures RowsOf(WithRows(t, snapshotKey, rows), k) == if k == snapshotKey then rows else RowsOf(t, k) {}
    forall k ensures RowsLinked(k, k in t.snapshots, RowsOf(WithRows(t, snapshotKey, rows), k)) {
      assert RowsLinked(k, k in t.snapshots, RowsOf(t, k));
    }
  }

  /** A snapshot's row goes, its nodes with it, and their edges with them. */
  function WithoutSnapshot(t: Tables, snapshotKey: string): Tables {
    WithRows(t.(snapshots := t.snapshots - {snapshotKey}), snapshotKey,
             Rows(map[], Cascaded(map[], EdgesOf(t.edges, snapshotKey))))
  }

  function WithoutNode(t: Tables, snapshotKey: string, nodeKey: string): Tables {
    var nodes := NodesOf(t.nodes, snapshotKey) - {nodeKey};
    WithRows(t, snapshotKey, Rows(nodes, Cascaded(nodes, EdgesOf(t.edges, snapshotKey))))
  }

  /** Deleting a snapshot removes exactly its own rows. */
  lemma WithoutSnapshotIsLocal(t: Tables, snapshotKey: string)
    requires Linked(t)
    ensures Linked(WithoutSnapshot(t, snapshotKey))
    ensures RowsOf(WithoutSnapshot(t, snapshotKey), snapshotKey) == Rows(map[], map[])
    ensures forall k :: k != snapshotKey ==> RowsOf(WithoutSnapshot(t, snapshotKey), k) == RowsOf(t, k)
  {
    var after := WithoutSnapshot(t, snapshotKey);
    assert Cascaded(map[], EdgesOf(t.edges, snapshotKey)) == map[];
    assert RowsOf(after, snapshotKey) == Rows(map[], map[]);
    forall k | k != snapshotKey ensures RowsOf(after, k) == RowsOf(t, k) {}
    forall k ensures RowsLinked(k, k in after.snapshots, RowsOf(after, k)) {
      assert RowsLinked(k, k in t.snapshots, RowsOf(t, k));
    }
  }

  lemma WithoutNodeKeeps(t: Tables, snapshotKey: string, nodeKey: string)
    requires Linked(t)
    ensures Linked(WithoutNode(t, snapshotKey, nodeKey))
  {
    assert RowsLinked(snapshotKey, snapshotKey in t.snapshots, RowsOf(t, snapshotKey));
    var nodes := NodesOf(t.nodes, snapshotKey) - {nodeKey};
    WithRowsLinked(t, snapshotKey, Rows(nodes, Cascaded(nodes, EdgesOf(t.edges, snapshotKey))));
  }

  /** Tables that show the same rows are linked alike. */
  lemma SameRows(a: Tables, b: Tables)
    requires Linked(a) && a.snapshots == b.snapshots && forall k :: RowsOf(a, k) == RowsOf(b, k)
    ensures Linked(b)
  {
    forall k ensures RowsLinked(k, k in b.snapshots, RowsOf(b, k)) {
      assert RowsLinked(k, k in a.snapshots, RowsOf(a, k));
    }
  }

  lemma UpsertSnapshotKeeps(t: Tables, record: SnapshotRecord)
    requires Linked(t)
    ensures Linked(t.(snapshots := t.snapshots[record.snapshotKey := record]))
  {
    var after := t.(snapshots := t.snapshots[record.snapshotKey := record]);
    forall k ensures RowsLinked(k, k in after.snapshots, RowsOf(after, k)) {
      assert RowsLinked(k, k in t.snapshots, RowsOf(t, k));
    }
  }

  // --------------------------------------------------------------- the store

  class Store {
    /** Which statements the database answers with an error, by statement number. */
    const trouble: nat -> bool
    var clock: nat
    var snapshots: map<string, SnapshotRecord>
    var nodes: map<string, map<string, NodeRecord>>
    var edges: map<string, map<string, EdgeRecord>>
    /** The state saved when a transaction was begun. */
    var saved: Option<Tables>

    function Contents(): Tables reads this { Tables(snapshots, nodes, edges) }

    ghost predicate Sound() reads this { Linked(Contents()) }

    ghost predicate Valid() reads this { Consistent(Contents()) && (saved.Some? ==> Consistent(saved.value)) }

    /** No statement between two points in time went wrong. */
    ghost predicate Quiet(from: nat, to: nat) { forall i :: from <= i < to ==> !trouble(i) }

    constructor (trouble: nat -> bool)
      ensures Valid() && Contents() == Tables(map[], map[], map[]) && saved.None? && clock == 0
              && this.trouble == trouble
    {
      this.trouble := trouble;
      clock := 0;
      snapshots, nodes, edges, saved := map[], map[], map[], None;
    }

    method Statement() returns (ok: bool)
      modifies `clock
      ensures clock == old(clock) + 1 && ok == !trouble(old(clock))
    {
      ok := !trouble(clock);
      clock := clock + 1;
    }

    // ------------------------------------------------------- transactions

    method Begin() returns (ok: bool)
      requires Valid()
      modifies `clock, `saved
      ensures Valid() && clock == old(clock) + 1
      ensures ok == (!trouble(old(clock)) && old(saved).None?)
      ensures saved == if ok then Some(Contents()) else old(saved)
    {
      ok := Statement();
      ok := ok && saved.None?;
      if ok { saved := Some(Contents()); }
    }

    method Commit() returns (ok: bool)
      requires Valid() && saved.Some?
      modifies `clock, `saved
      ensures Valid() && clock == old(clock) + 1 && ok == !trouble(old(clock))
      ensures saved == if ok then None else old(saved)
    {
      ok := Statement();
      if ok { saved := None; }
    }

    /** Restores what was saved; the answer is ignored by the caller, so it is taken to succeed. */
    method Rollback()
      requires Valid() && saved.Some?
      modifies this
      ensures Valid() && Contents() == old(saved).value && saved.None? && clock == old(clock)
    {
      snapshots, nodes, edges := saved.value.snapshots, saved.value.nodes, saved.value.edges;
      saved := None;
    }

    // ------------------------------------------------------------- writing

    /** Upserts a snapshot whose payload verifies; its nodes and edges stay. */
    method InsertSnapshot(record: SnapshotRecord) returns (r: Result<(), StoreError>)
      requires Valid()
      modifies `clock, `snapshots
      ensures Valid() && old(clock) <= clock <= old(clock) + 1
      ensures r.Ok? ==> PayloadOk(record.payload) && snapshots == old(snapshots)[record.snapshotKey := record]
      ensures r.Err? ==> snapshots == old(snapshots)
      ensures r == Err(InvalidCertification) <==> !PayloadOk(record.payload)
      ensures r.Err? && r.error != InvalidCertification ==> r.error == Storage && !Quiet(old(clock), clock)
    {
      hide Verified;
      if record.payload.Versioned? {
        var accepted := VerifyCertifiedSchemaSnapshot(record.payload.certified);
        if !accepted { return Err(InvalidCertification); }
      }
      assert PayloadOk(record.payload);
      var ok := UpsertSnapshot(record);
      return if ok then Ok(()) else Err(Storage);
    }

    method UpsertSnapshot(record: SnapshotRecord) returns (ok: bool)
      requires Sound()
      modifies `clock, `snapshots
      ensures Sound() && clock == old(clock) + 1 && ok == !trouble(old(clock))
      ensures snapshots == if ok then old(snapshots)[record.snapshotKey := record] else old(snapshots)
    {
      UpsertSnapshotKeeps(Contents(), record);
      ok := Statement();
      if ok { snapshots := snapshots[record.snapshotKey := record]; }
    }

    method InsertNode(node: NodeRecord) returns (ok: bool)
      requires Sound()
      modifies `clock, `nodes
      ensures Sound() && clock == old(clock) + 1
      ensures ok == (!trouble(old(clock)) && node.snapshotKey in snapshots)
      ensures nodes == if ok then old(nodes)[node.snapshotKey :=
                                             NodesOf(old(nodes), node.snapshotKey)[node.nodeKey := node]]
                                             else old(nodes)
    {
      ok := Statement();
      ok := ok && node.snapshotKey in snapshots;
      if ok {
        ghost var rows := RowsOf(Contents(), node.snapshotKey);
        assert RowsLinked(node.snapshotKey, true, rows);
        WithRowsLinked(Contents(), node.snapshotKey, rows.(nodes := rows.nodes[node.nodeKey := node]));
        nodes := nodes[node.snapshotKey := NodesOf(nodes, node.snapshotKey)[node.nodeKey := node]];
        SameRows(WithRows(old(Contents()), node.snapshotKey, rows.(nodes := rows.nodes[node.nodeKey := node])),
                 Contents());
      }
    }

    method InsertEdge(edge: EdgeRecord) returns (ok: bool)
      requires Sound()
      modifies `clock, `edges
      ensures Sound() && clock == old(clock) + 1
      ensures ok == (!trouble(old(clock)) && edge.edgeFrom in NodesOf(nodes, edge.snapshotKey)
                     && edge.edgeTo in NodesOf(nodes, edge.snapshotKey))
      ensures edges == if ok then old(edges)[edge.snapshotKey :=
                                             EdgesOf(old(edges), edge.snapshotKey)[edge.edgeKey := edge]]
                                             else old(edges)
    {
      ok := Statement();
      ok := ok && edge.edgeFrom in NodesOf(nodes, edge.snapshotKey) && edge.edgeTo in NodesOf(nodes, edge.snapshotKey);
      if ok {
        ghost var rows := RowsOf(Contents(), edge.snapshotKey);
        assert RowsLinked(edge.snapshotKey, edge.snapshotKey in snapshots, rows);
        WithRowsLinked(Contents(), edge.snapshotKey, rows.(edges := rows.edges[edge.edgeKey := edge]));
        edges := edges[edge.snapshotKey := EdgesOf(edges, edge.snapshotKey)[edge.edgeKey := edge]];
        SameRows(WithRows(old(Contents()), edge.snapshotKey, rows.(edges := rows.edges[edge.edgeKey := edge])),
                 Contents());
      }
    }

    /** Deletes a snapshot and, by cascade, its nodes and their edges. */
    method DeleteSnapshot(snapshotKey: string) returns (ok: bool)
      requires Sound()
      modifies `clock, `snapshots, `nodes, `edges
      ensures Sound() && clock == old(clock) + 1 && ok == !trouble(old(clock))
      ensures Contents() == if ok then WithoutSnapshot(old(Contents()), snapshotKey) else old(Contents())
    {
      WithoutSnapshotIsLocal(Contents(), snapshotKey);
      ok := Statement();
      if ok {
        snapshots := snapshots - {snapshotKey};
        nodes := nodes[snapshotKey := map[]];
        edges := edges[snapshotKey := Cascaded(NodesOf(nodes, snapshotKey), EdgesOf(edges, snapshotKey))];
      }
    }

    /** Deletes a node and, by cascade, the edges at it. */
    method DeleteNode(snapshotKey: string, nodeKey: string) returns (ok: bool)
      requires Sound()
      modifies `clock, `nodes, `edges
      ensures Sound() && clock == old(clock) + 1 && ok == !trouble(old(clock))
      ensures Contents() == if ok then WithoutNode(old(Contents()), snapshotKey, nodeKey) else old(Contents())
    {
      WithoutNodeKeeps(Contents(), snapshotKey, nodeKey);
      ok := Statement();
      if ok {
        nodes := nodes[snapshotKey := NodesOf(nodes, snapshotKey) - {nodeKey}];
        edges := edges[snapshotKey := Cascaded(NodesOf(nodes, snapshotKey), EdgesOf(edges, snapshotKey))];
      }
    }

    method DeleteEdge(snapshotKey: string, edgeKey: string) returns (ok: bool)
      requires Sound()
      modifies `clock, `edges
      ensures Sound() && clock == old(clock) + 1 && ok == !trouble(old(clock))
      ensures edges == if ok then old(edges)[snapshotKey := EdgesOf(old(edges), snapshotKey) - {edgeKey}]
              else old(edges)
    {
      ok := Statement();
      if ok {
        ghost var rows := RowsOf(Contents(), snapshotKey);
        assert RowsLinked(snapshotKey, snapshotKey in snapshots, rows);
        WithRowsLinked(Contents(), snapshotKey, rows.(edges := rows.edges - {edgeKey}));
        edges := edges[snapshotKey := EdgesOf(edges, snapshotKey) - {edgeKey}];
        SameRows(WithRows(old(Contents()), snapshotKey, rows.(edges := rows.edges - {edgeKey})), Contents());
      }
    }

    // ------------------------------------------------------------- reading

    /** SELECT COUNT(*) of one snapshot's nodes and edges. */
    method CountRows(snapshotKey: string) returns (counts: Option<(nat, nat)>)
      requires Sound()
      modifies `clock
      ensures Sound() && old(clock) <= clock
      ensures counts.Some? ==> counts.value == (|RowsOf(Contents(), snapshotKey).nodes|,
                                                |RowsOf(Contents(), snapshotKey).edges|)
      ensures counts.None? ==> !Quiet(old(clock), clock)
    {
      var first := Statement();
      if !first { return None; }
      var nodeCount := |NodesOf(nodes, snapshotKey)|;
      var second := Statement();
      if !second { return None; }
      var edgeCount := |EdgesOf(edges, snapshotKey)|;
      return Some((nodeCount, edgeCount));
    }

    /** A stored certificate is verified again when it is read, and passes: reading fails only with the database. */
    method GetCertifiedSnapshot(snapshotKey: string) returns (r: Result<Option<CertifiedSchemaSnapshot>, StoreError>)
      requires Valid()
      modifies `clock
      ensures Valid() && Contents() == old(Contents()) && old(clock) <= clock
      ensures r.Err? ==> r.error == Storage && !Quiet(old(clock), clock)
      ensures r.Ok? ==> (r.value.Some? <==> snapshotKey in snapshots && snapshots[snapshotKey].payload.Versioned?)
      ensures r.Ok? && r.value.Some? ==>
                r.value.value == snapshots[snapshotKey].payload.certified && Verified(r.value.value)
    {
      hide Verified;
      var read := Statement();
      if !read { return Err(Storage); }
      if snapshotKey !in snapshots { return Ok(None); }
      match snapshots[snapshotKey].payload {
        case Legacy(_) => return Ok(None);
        case Versioned(certified) =>
          var accepted := VerifyCertifiedSchemaSnapshot(certified);
          return if accepted then Ok(Some(certified)) else Err(InvalidCertification);
      }
    }
  }
}
