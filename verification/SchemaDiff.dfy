/** Comparing two stored snapshots up to their connection aliases, with impacts under a shared budget
    (schema_diff.rs). */
module SchemaDiff {
  import opened Wrappers
  import opened Lists
  import opened Ordering
  import opened ObjectKeys
  import opened GraphModel
  import opened EdgeFetch
  import opened BreadthFirst
  import opened GraphSearch
  import opened ImpactAnalysis
  import opened JsonPayload

  // ---------------------------------------------------------- comparable keys

  function WithoutAlias(key: ObjectKey): ObjectKey { key.(connectionAlias := "_") }

  /** `comparable_object_key`: text that does not parse stays as it is. */
  function ComparableObjectKey(text: string): string {
    match Parse(text) case Some(key) => Print(WithoutAlias(key)) case None => text
  }

  /** Two keys become equal exactly when all their components except the alias are and none is empty,
      or the keys are one: a key with an empty component cannot be read back and keeps its alias. */
  lemma ComparableKeysEqual(a: ObjectKey, b: ObjectKey)
    requires OwnSource(a) && OwnSource(b)
    ensures ComparableObjectKey(Print(a)) == ComparableObjectKey(Print(b))
       <==> a == b || ([] !in Parts(a) && [] !in Parts(b) && WithoutAlias(a) == WithoutAlias(b))
  {
    ComparableForm(a);
    ComparableForm(b);
    WithoutAliasParts(a);
    WithoutAliasParts(b);
    PrintDecides(if [] in Parts(a) then a else WithoutAlias(a), if [] in Parts(b) then b else WithoutAlias(b));
  }

  lemma ComparableForm(key: ObjectKey)
    requires OwnSource(key)
    ensures ComparableObjectKey(Print(key)) == Print(if [] in Parts(key) then key else WithoutAlias(key))
  {
    hide Print, Parse, Parts;
    ParseOwnPrint(key);
  }

  lemma WithoutAliasParts(key: ObjectKey)
    ensures [] !in Parts(key) ==> [] !in Parts(WithoutAlias(key))
  {
    forall part | part in Parts(WithoutAlias(key)) ensures part == "_" || part in Parts(key) {}
  }

  lemma PrintDecides(a: ObjectKey, b: ObjectKey)
    ensures Print(a) == Print(b) <==> a == b
  {
    if Print(a) == Print(b) { PrintInjective(a, b); }
  }

  /** The family that fails: with an empty component, such as the empty signature of a routine without
      arguments, a printed key cannot be read back, so it differs under every other alias. */
  lemma EmptyPartsKeepAliases(key: ObjectKey, alias: string)
    requires key.sourceKind != "v2" && [] in Parts(key) && alias != key.connectionAlias
    ensures ComparableObjectKey(Print(key)) == Print(key)
    ensures ComparableObjectKey(Print(key)) != ComparableObjectKey(Print(key.(connectionAlias := alias)))
  {
    ComparableForm(key);
    ComparableKeysEqual(key, key.(connectionAlias := alias));
  }

  /** The same family for the bare source kind `v2` without a sub-object. */
  lemma UnreadableKeysKeepAliases(key: ObjectKey, alias: string)
    requires key.sourceKind == "v2" && key.subObject == None && [] !in Parts(key) && !Versioned(key)
    requires alias != key.connectionAlias && alias != [] && !Reserved(alias)
    ensures ComparableObjectKey(Print(key)) != ComparableObjectKey(Print(key.(connectionAlias := alias)))
  {
    var other := key.(connectionAlias := alias);
    forall part | part in Parts(other) ensures !Reserved(part) && part != [] {
      if part != alias { assert part in Parts(key); }
    }
    VersionMarkAsSourceKind(key);
    VersionMarkAsSourceKind(other);
    if Print(key) == Print(other) { PrintInjective(key, other); }
  }

  function ComparableEdgeKey(e: EdgeRecord): string {
    e.edgeType + ":" + ComparableObjectKey(e.edgeFrom) + "->" + ComparableObjectKey(e.edgeTo)
  }

  function ComparablePayload(payload: NodePayload): Json { Strip(PayloadJson(payload)) }

  /** Nodes the diff does not call changed. */
  predicate Same(a: NodeRecord, b: NodeRecord) {
    a.nodeLabel == b.nodeLabel && a.displayName == b.displayName
        && ComparablePayload(a.payload) == ComparablePayload(b.payload)
  }

  // ---------------------------------------------------------------- snapshots

  function ComparableNode(node: NodeRecord): string { ComparableObjectKey(node.nodeKey) }

  lemma NodeKeysDistinguish(g: Graph)
    ensures Distinguishes(g.nodes.Values, ByNodeKey)
  {
    forall x, y | x in g.nodes.Values && y in g.nodes.Values && ByNodeKey(x) == ByNodeKey(y) ensures x == y {
      assert [x.nodeKey][0] == [y.nodeKey][0];
    }
  }

  function StoredNodes(g: Graph): seq<NodeRecord> {
    NodeKeysDistinguish(g);
    OrderBy(g.nodes.Values, ByNodeKey)
  }

  function StoredEdges(g: Graph): seq<EdgeRecord> {
    EdgeKeysDistinguish(g, g.edges.Values);
    OrderBy(g.edges.Values, ByEdgeKey)
  }

  function NodesByComparable(g: Graph): map<string, NodeRecord> { Upserted(StoredNodes(g), ComparableNode) }

  function EdgesByComparable(g: Graph): map<string, EdgeRecord> { Upserted(StoredEdges(g), ComparableEdgeKey) }

  /** `snapshot_nodes` and `snapshot_edges`: the rows in key order, inserted one after another. */
  method CollectBy<R>(rows: seq<R>, key: R -> string) returns (byKey: map<string, R>)
    ensures byKey == Upserted(rows, key)
  {
    byKey := map[];
    for i := 0 to |rows|
      invariant byKey == Upserted(rows[..i], key)
    {
      UpsertedLast(rows[..i], rows[i], key);
      PrefixLast(rows, i);
      byKey := byKey[key(rows[i]) := rows[i]];
    }
    WholePrefix(rows);
  }

  // -------------------------------------------------------- what was changed

  function SortedKeys<V>(m: map<string, V>): (r: seq<string>)
    ensures StrictlySorted(r, ByText) && forall k :: k in r <==> k in m
  {
    assert Distinguishes(m.Keys, ByText) by {
      forall x, y | x in m.Keys && y in m.Keys && ByText(x) == ByText(y) ensures x == y { assert [x][0] == [y][0]; }
    }
    OrderBy(m.Keys, ByText)
  }

  /** The keys of one map that another lacks, in order. */
  function Missing<V, W>(m: map<string, V>, from: map<string, W>): seq<string> {
    SelectKeys(SortedKeys(m), k => k !in from)
  }

  function SelectKeys(keys: seq<string>, wanted: string -> bool): seq<string> {
    if keys == [] then [] else (if wanted(keys[0]) then [keys[0]] else []) + SelectKeys(keys[1..], wanted)
  }

  predicate IsChanged(from: map<string, NodeRecord>, to: map<string, NodeRecord>, k: string) {
    k in from && k in to && !Same(from[k], to[k])
  }

  function ChangedKeys(from: map<string, NodeRecord>, to: map<string, NodeRecord>): seq<string> {
    SelectKeys(SortedKeys(to), k => IsChanged(from, to, k))
  }

  lemma {:induction false} SelectHolds(keys: seq<string>, wanted: string -> bool, r: seq<string>)
    requires r == SelectKeys(keys, wanted)
    ensures forall k :: k in r <==> k in keys && wanted(k)
    ensures StrictlySorted(keys, ByText) ==> StrictlySorted(r, ByText)
  {
    if keys != [] {
      var rest := SelectKeys(keys[1..], wanted);
      SelectHolds(keys[1..], wanted, rest);
      assert keys == [keys[0]] + keys[1..];
      if StrictlySorted(keys, ByText) {
        assert StrictlySorted(keys[1..], ByText);
        forall k | k in rest ensures Less(ByText(keys[0]), ByText(k)) {
          var i :| 0 <= i < |keys[1..]| && keys[1..][i] == k;
          assert keys[i + 1] == k;
        }
      }
    }
  }

  lemma MissingHolds<V, W>(m: map<string, V>, from: map<string, W>, r: seq<string>)
    requires r == Missing(m, from)
    ensures StrictlySorted(r, ByText) && forall k :: k in r <==> k in m && k !in from
  {
    SelectHolds(SortedKeys(m), k => k !in from, r);
  }

  lemma ChangedHolds(from: map<string, NodeRecord>, to: map<string, NodeRecord>, r: seq<string>)
    requires r == ChangedKeys(from, to)
    ensures StrictlySorted(r, ByText) && forall k :: k in r <==> IsChanged(from, to, k)
  {
    SelectHolds(SortedKeys(to), k => IsChanged(from, to, k), r);
  }

  function Lookup<V>(m: map<string, V>, keys: seq<string>): (r: seq<V>)
    requires forall k :: k in keys ==> k in m
    ensures |r| == |keys|
  {
    seq(|keys|, i requires 0 <= i < |keys| => m[keys[i]])
  }

  datatype ChangedNode = ChangedNode(before: NodeRecord, after: NodeRecord)

  function Pairs(from: map<string, NodeRecord>, to: map<string, NodeRecord>, keys: seq<string>): (r: seq<ChangedNode>)
    requires forall k :: k in keys ==> k in from && k in to
    ensures |r| == |keys|
  {
    seq(|keys|, i requires 0 <= i < |keys| => ChangedNode(from[keys[i]], to[keys[i]]))
  }

  /** The full lists of a comparison, by comparable key. */
  datatype Comparison = Comparison(
    addedNodes: seq<NodeRecord>, removedNodes: seq<NodeRecord>, changedNodes: seq<ChangedNode>,
    addedEdges: seq<EdgeRecord>, removedEdges: seq<EdgeRecord>)

  function MissingRows<V, W>(m: map<string, V>, from: map<string, W>): seq<V> {
    var r := Missing(m, from);
    MissingHolds(m, from, r);
    Lookup(m, r)
  }

  function ChangedRows(from: map<string, NodeRecord>, to: map<string, NodeRecord>): seq<ChangedNode> {
    var r := ChangedKeys(from, to);
    ChangedHolds(from, to, r);
    Pairs(from, to, r)
  }

  function Compare(from: Graph, to: Graph): Comparison {
    var fromNodes, toNodes := NodesByComparable(from), NodesByComparable(to);
    var fromEdges, toEdges := EdgesByComparable(from), EdgesByComparable(to);
    Comparison(MissingRows(toNodes, fromNodes), MissingRows(fromNodes, toNodes), ChangedRows(fromNodes, toNodes),
               MissingRows(toEdges, fromEdges), MissingRows(fromEdges, toEdges))
  }

  /** Filters the rows of one map in key order. */
  method FilterMissing<V, W>(m: map<string, V>, from: map<string, W>) returns (rows: seq<V>)
    ensures rows == MissingRows(m, from)
  {
    ghost var wanted := k => k !in from;
    rows := FilterRows(m, from, SortedKeys(m), wanted);
  }

  method FilterRows<V, W>(m: map<string, V>, from: map<string, W>, keys: seq<string>, ghost wanted: string -> bool)
    returns (rows: seq<V>)
    requires (forall k :: k in keys ==> k in m) && forall k :: wanted(k) == (k !in from)
    ensures forall k :: k in SelectKeys(keys, wanted) ==> k in m
    ensures rows == Lookup(m, SelectKeys(keys, wanted))
  {
    rows := [];
    for i := 0 to |keys|
      invariant forall k :: k in SelectKeys(keys[..i], wanted) ==> k in m
      invariant rows == Lookup(m, SelectKeys(keys[..i], wanted))
    {
      var key := keys[i];
      ghost var chosen := SelectKeys(keys[..i], wanted);
      SelectLast(keys[..i], key, wanted);
      PrefixLast(keys, i);
      LookupLast(m, chosen, key);
      if key !in from { rows := rows + [m[key]]; }
      assert chosen + [] == chosen;
    }
    WholePrefix(keys);
  }

  lemma LookupLast<V>(m: map<string, V>, keys: seq<string>, last: string)
    requires (forall k :: k in keys ==> k in m) && last in m
    ensures Lookup(m, keys + [last]) == Lookup(m, keys) + [m[last]]
  {
  }

  lemma {:induction false} SelectLast(keys: seq<string>, last: string, wanted: string -> bool)
    ensures SelectKeys(keys + [last], wanted) == SelectKeys(keys, wanted) + (if wanted(last) then [last] else [])
  {
    if keys == [] {
      assert [last][1..] == [] && [] + [last] == [last];
    } else {
      assert (keys + [last])[1..] == keys[1..] + [last];
      SelectLast(keys[1..], last, wanted);
    }
  }

  method NodeChanged(before: NodeRecord, after: NodeRecord) returns (changed: bool)
    ensures changed == !Same(before, after)
  {
    changed := before.nodeLabel != after.nodeLabel || before.displayName != after.displayName
               || ComparablePayload(before.payload) != ComparablePayload(after.payload);
  }

  lemma PairsLast(from: map<string, NodeRecord>, to: map<string, NodeRecord>, keys: seq<string>, last: string)
    requires (forall k :: k in keys ==> k in from && k in to) && last in from && last in to
    ensures Pairs(from, to, keys + [last]) == Pairs(from, to, keys) + [ChangedNode(from[last], to[last])]
  {
  }

  method FilterChanged(from: map<string, NodeRecord>, to: map<string, NodeRecord>) returns (rows: seq<ChangedNode>)
    ensures rows == ChangedRows(from, to)
  {
    ghost var wanted := k => IsChanged(from, to, k);
    rows := FilterPairs(from, to, SortedKeys(to), wanted);
  }

  method FilterPairs(from: map<string, NodeRecord>, to: map<string, NodeRecord>, keys: seq<string>,
                     ghost wanted: string -> bool)
    returns (rows: seq<ChangedNode>)
    requires forall k :: k in keys ==> k in to
    requires forall k :: wanted(k) == IsChanged(from, to, k)
    ensures forall k :: k in SelectKeys(keys, wanted) ==> k in from && k in to
    ensures rows == Pairs(from, to, SelectKeys(keys, wanted))
  {
    rows := [];
    for i := 0 to |keys|
      invariant forall k :: k in SelectKeys(keys[..i], wanted) ==> k in from && k in to
      invariant rows == Pairs(from, to, SelectKeys(keys[..i], wanted))
    {
      var key := keys[i];
      ghost var chosen := SelectKeys(keys[..i], wanted);
      SelectLast(keys[..i], key, wanted);
      PrefixLast(keys, i);
      if key in from {
        var changed := NodeChanged(from[key], to[key]);
        PairsLast(from, to, chosen, key);
        if changed { rows := rows + [ChangedNode(from[key], to[key])]; }
      }
      assert chosen + [] == chosen;
    }
    WholePrefix(keys);
  }

  method CompareSnapshots(from: Graph, to: Graph) returns (c: Comparison)
    ensures c == Compare(from, to)
  {
    var fromNodes := CollectBy(StoredNodes(from), ComparableNode);
    var toNodes := CollectBy(StoredNodes(to), ComparableNode);
    var fromEdges := CollectBy(StoredEdges(from), ComparableEdgeKey);
    var toEdges := CollectBy(StoredEdges(to), ComparableEdgeKey);
    var addedNodes := FilterMissing(toNodes, fromNodes);
    var removedNodes := FilterMissing(fromNodes, toNodes);
    var changedNodes := FilterChanged(fromNodes, toNodes);
    var addedEdges := FilterMissing(toEdges, fromEdges);
    var removedEdges := FilterMissing(fromEdges, toEdges);
    c := Comparison(addedNodes, removedNodes, changedNodes, addedEdges, removedEdges);
  }

  // ----------------------------------------------------------- laws of the lists

  lemma ComparableTable(g: Graph)
    ensures forall k :: k in NodesByComparable(g) ==> ComparableNode(NodesByComparable(g)[k]) == k
    ensures forall k :: k in EdgesByComparable(g) ==> ComparableEdgeKey(EdgesByComparable(g)[k]) == k
  {
    UpsertedHolds(StoredNodes(g), ComparableNode, NodesByComparable(g));
    UpsertedHolds(StoredEdges(g), ComparableEdgeKey, EdgesByComparable(g));
  }

  /** Upserting rows into a table. */
  function WithAll<R>(m: map<string, R>, rows: seq<R>, key: R -> string): map<string, R> {
    if rows == [] then m
    else
      var last := rows[|rows| - 1];
      WithAll(m, rows[..|rows| - 1], key)[key(last) := last]
  }

  lemma {:induction false} WithAllHolds<R>(m: map<string, R>, rows: seq<R>, key: R -> string, r: map<string, R>)
    requires r == WithAll(m, rows, key)
    ensures forall k :: k in r ==>
              (k in m && r[k] == m[k] && forall row :: row in rows ==> key(row) != k)
              || (r[k] in rows && key(r[k]) == k)
    ensures (forall k :: k in m ==> k in r) && (forall row :: row in rows ==> key(row) in r)
  {
    if rows != [] {
      var init := rows[..|rows| - 1];
      assert rows == init + [rows[|rows| - 1]];
      WithAllHolds(m, init, key, WithAll(m, init, key));
    }
  }

  function After(c: ChangedNode): NodeRecord { c.after }

  /** What the lists turn a table into: drop the removed, write the changed and the added. */
  ghost function Patched<R>(m: map<string, R>, removed: seq<R>, written: seq<R>, key: R -> string): map<string, R> {
    WithAll(m - set row | row in removed :: key(row), written, key)
  }

  lemma LookupHolds<V>(m: map<string, V>, keys: seq<string>, r: seq<V>, key: V -> string)
    requires (forall k :: k in keys ==> k in m) && r == Lookup(m, keys) && forall k :: k in m ==> key(m[k]) == k
    ensures forall row :: row in r ==> key(row) in keys && row == m[key(row)]
    ensures forall k :: k in keys ==> m[k] in r
  {
    forall k | k in keys ensures m[k] in r {
      var i :| 0 <= i < |keys| && keys[i] == k;
      assert r[i] == m[k];
    }
  }

  /** The rows only one side has, found under their keys. */
  lemma MissingRowsHold<V, W>(m: map<string, V>, from: map<string, W>, key: V -> string, r: seq<V>)
    requires r == MissingRows(m, from) && forall k :: k in m ==> key(m[k]) == k
    ensures forall row :: row in r ==> key(row) in m && key(row) !in from && row == m[key(row)]
    ensures forall k :: k in m && k !in from ==> m[k] in r
  {
    MissingHolds(m, from, Missing(m, from));
    LookupHolds(m, Missing(m, from), r, key);
  }

  lemma ChangedRowsHold(from: map<string, NodeRecord>, to: map<string, NodeRecord>, r: seq<ChangedNode>)
    requires r == ChangedRows(from, to) && forall k :: k in to ==> ComparableNode(to[k]) == k
    ensures forall row :: row in MapSeq(After, r) ==>
            IsChanged(from, to, ComparableNode(row)) && row == to[ComparableNode(row)]
    ensures forall k :: IsChanged(from, to, k) ==> to[k] in MapSeq(After, r)
  {
    var keys := ChangedKeys(from, to);
    ChangedHolds(from, to, keys);
    assert MapSeq(After, r) == Lookup(to, keys);
    LookupHolds(to, keys, MapSeq(After, r), ComparableNode);
  }

  /** Applying removed, changed and added to one snapshot gives the other: the same comparable keys,
      and under each a node the diff cannot tell from the other's. */
  lemma PatchGivesTo(from: Graph, to: Graph)
    ensures var c := Compare(from, to);
            var patched := Patched(NodesByComparable(from), c.removedNodes, MapSeq(After, c.changedNodes)
                                   + c.addedNodes, ComparableNode);
            && patched.Keys == NodesByComparable(to).Keys
            && forall k :: k in patched ==> Same(patched[k], NodesByComparable(to)[k])
    ensures var c := Compare(from, to);
            Patched(EdgesByComparable(from), c.removedEdges, c.addedEdges, ComparableEdgeKey).Keys
                == EdgesByComparable(to).Keys
  {
    ComparableTable(from);
    ComparableTable(to);
    var c := Compare(from, to);
    NodesPatched(NodesByComparable(from), NodesByComparable(to), c.removedNodes, c.changedNodes, c.addedNodes);
    EdgesPatched(EdgesByComparable(from), EdgesByComparable(to), c.removedEdges, c.addedEdges);
  }

  lemma PatchHolds<R>(f: map<string, R>, t: map<string, R>, removed: seq<R>, written: seq<R>, key: R -> string,
                      patched: map<string, R>)
    requires (forall k :: k in f ==> key(f[k]) == k) && (forall k :: k in t ==> key(t[k]) == k)
    requires forall row :: row in removed ==> key(row) !in t
    requires forall k :: k in f && k !in t ==> f[k] in removed
    requires forall row :: row in written ==> key(row) in t && row == t[key(row)]
    requires forall k :: k in t && k !in f ==> t[k] in written
    requires patched == Patched(f, removed, written, key)
    ensures forall k :: k in patched <==> k in t
    ensures forall k :: k in patched ==> patched[k] == t[k] || (k in f && patched[k] == f[k] && t[k] !in written)
  {
    var gone := set row | row in removed :: key(row);
    var kept := f - gone;
    WithAllHolds(kept, written, key, patched);
    forall k | k in t ensures k in patched {
      if k in f {
        assert k !in gone;
      } else {
        assert t[k] in written;
      }
    }
    assert forall row :: row in removed ==> key(row) in gone;
    assert forall k :: k in kept ==> k in t;
    forall k | k in patched && patched[k] != t[k] ensures k in f && patched[k] == f[k] && t[k] !in written {
      assert k in kept;
    }
  }

  lemma NodesPatched(f: map<string, NodeRecord>, t: map<string, NodeRecord>, removed: seq<NodeRecord>,
                     changed: seq<ChangedNode>, added: seq<NodeRecord>)
    requires (forall k :: k in f ==> ComparableNode(f[k]) == k) && (forall k :: k in t ==> ComparableNode(t[k]) == k)
    requires removed == MissingRows(f, t) && added == MissingRows(t, f) && changed == ChangedRows(f, t)
    ensures var patched := Patched(f, removed, MapSeq(After, changed) + added, ComparableNode);
            patched.Keys == t.Keys && forall k :: k in patched ==> Same(patched[k], t[k])
  {
    MissingRowsHold(f, t, ComparableNode, removed);
    MissingRowsHold(t, f, ComparableNode, added);
    ChangedRowsHold(f, t, changed);
    var written := MapSeq(After, changed) + added;
    var patched := Patched(f, removed, written, ComparableNode);
    PatchHolds(f, t, removed, written, ComparableNode, patched);
    UnwrittenAreSame(f, t, MapSeq(After, changed), written, patched);
  }

  lemma UnwrittenAreSame(f: map<string, NodeRecord>, t: map<string, NodeRecord>, changed: seq<NodeRecord>,
                         written: seq<NodeRecord>,
                         patched: map<string, NodeRecord>)
    requires (forall k :: k in patched <==> k in t) && forall row :: row in changed ==> row in written
    requires forall k :: k in patched ==> patched[k] == t[k] || (k in f && patched[k] == f[k] && t[k] !in written)
    requires forall k :: IsChanged(f, t, k) ==> t[k] in changed
    ensures patched.Keys == t.Keys && forall k :: k in patched ==> Same(patched[k], t[k])
  {
    forall k | k in patched ensures Same(patched[k], t[k]) {
      if patched[k] != t[k] { assert !IsChanged(f, t, k); }
    }
  }

  lemma EdgesPatched(f: map<string, EdgeRecord>, t: map<string, EdgeRecord>, removed: seq<EdgeRecord>,
                     added: seq<EdgeRecord>)
    requires (forall k :: k in f ==> ComparableEdgeKey(f[k]) == k)
             && (forall k :: k in t ==> ComparableEdgeKey(t[k]) == k)
    requires removed == MissingRows(f, t) && added == MissingRows(t, f)
    ensures Patched(f, removed, added, ComparableEdgeKey).Keys == t.Keys
  {
    hide MissingRows, Patched, ComparableEdgeKey;
    MissingRowsHold(f, t, ComparableEdgeKey, removed);
    MissingRowsHold(t, f, ComparableEdgeKey, added);
    PatchHolds(f, t, removed, added, ComparableEdgeKey, Patched(f, removed, added, ComparableEdgeKey));
  }

  function Mirrored(c: ChangedNode): ChangedNode { ChangedNode(c.after, c.before) }

  /** Swapping the snapshots swaps added and removed and mirrors changed. */
  lemma SwapMirrors(from: Graph, to: Graph)
    ensures var c, d := Compare(from, to), Compare(to, from);
            && d.addedNodes == c.removedNodes && d.removedNodes == c.addedNodes
            && d.addedEdges == c.removedEdges && d.removedEdges == c.addedEdges
            && d.changedNodes == MapSeq(Mirrored, c.changedNodes)
  {
    ChangedMirrors(NodesByComparable(from), NodesByComparable(to));
  }

  lemma ChangedMirrors(f: map<string, NodeRecord>, t: map<string, NodeRecord>)
    ensures ChangedRows(t, f) == MapSeq(Mirrored, ChangedRows(f, t))
  {
    var x, y := ChangedKeys(f, t), ChangedKeys(t, f);
    ChangedHolds(f, t, x);
    ChangedHolds(t, f, y);
    forall k ensures k in x <==> k in y { assert IsChanged(f, t, k) <==> IsChanged(t, f, k); }
    StrictlySortedUnique(x, y, ByText);
    var p, q := ChangedRows(f, t), ChangedRows(t, f);
    forall i | 0 <= i < |x| ensures q[i] == Mirrored(p[i]) {
      assert x[i] in x && p[i] == ChangedNode(f[x[i]], t[x[i]]) && q[i] == ChangedNode(t[y[i]], f[y[i]]);
    }
  }

  const NoDifference := Comparison([], [], [], [], [])

  /** Nothing is reported exactly when both sides have the same comparable keys and no node changed. */
  lemma NoDifferenceWhen(from: Graph, to: Graph)
    ensures Compare(from, to) == NoDifference <==>
              && NodesByComparable(from).Keys == NodesByComparable(to).Keys
              && EdgesByComparable(from).Keys == EdgesByComparable(to).Keys
              && AllSame(NodesByComparable(from), NodesByComparable(to))
  {
    MissingEither(NodesByComparable(from), NodesByComparable(to));
    MissingEither(EdgesByComparable(from), EdgesByComparable(to));
    ChangedNone(NodesByComparable(from), NodesByComparable(to));
  }

  predicate AllSame(f: map<string, NodeRecord>, t: map<string, NodeRecord>) {
    forall k :: k in f && k in t ==> Same(f[k], t[k])
  }

  lemma MissingEither<V>(f: map<string, V>, t: map<string, V>)
    ensures MissingRows(f, t) == [] && MissingRows(t, f) == [] <==> f.Keys == t.Keys
  {
    MissingNone(f, t);
    MissingNone(t, f);
  }

  lemma MissingNone<V, W>(m: map<string, V>, from: map<string, W>)
    ensures MissingRows(m, from) == [] <==> m.Keys <= from.Keys
  {
    var r := Missing(m, from);
    MissingHolds(m, from, r);
    if r == [] {
      forall k | k in m.Keys ensures k in from.Keys { assert k !in r; }
    } else {
      assert r[0] in r;
    }
  }

  lemma ChangedNone(f: map<string, NodeRecord>, t: map<string, NodeRecord>)
    ensures ChangedRows(f, t) == [] <==> AllSame(f, t)
  {
    var r := ChangedKeys(f, t);
    ChangedHolds(f, t, r);
    if r == [] {
      forall k | k in f && k in t ensures Same(f[k], t[k]) { assert k !in r; }
    } else {
      assert r[0] in r && IsChanged(f, t, r[0]);
    }
  }

  /** A snapshot does not differ from itself. */
  lemma SelfDiffIsEmpty(g: Graph)
    ensures Compare(g, g) == NoDifference
  {
    NoDifferenceWhen(g, g);
  }
}
