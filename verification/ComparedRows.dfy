/** What the lists of a comparison say of the stored rows themselves (schema_diff.rs). */
module ComparedRows {
  import opened Wrappers
  import opened Lists
  import opened Ordering
  import opened ObjectKeys
  import opened GraphModel
  import opened EdgeFetch
  import opened EdgeTexts
  import opened SchemaDiff

  // ----------------------------------------------------------------- edge keys

  /** An edge type with a colon only after `EXTENSION`, and keys that cannot be mistaken for two. */
  ghost predicate Separable(e: EdgeRecord) {
    && '>' !in e.edgeType && '>' !in ComparableObjectKey(e.edgeFrom)
    && ((':' !in e.edgeType && e.edgeType != "EXTENSION") || Extends(e.edgeType))
  }

  ghost predicate Extends(edgeType: string) {
    exists name: string :: ':' !in name && edgeType == "EXTENSION" + ":" + name
  }

  /** Edges of one type between the same objects, aliases aside; ordinals do not count. */
  ghost predicate Alike(e: EdgeRecord, f: EdgeRecord) {
    && e.edgeType == f.edgeType
    && ComparableObjectKey(e.edgeFrom) == ComparableObjectKey(f.edgeFrom)
    && ComparableObjectKey(e.edgeTo) == ComparableObjectKey(f.edgeTo)
  }

  lemma TypesSplit(t: string, a: string, u: string, b: string)
    requires (':' !in t && t != "EXTENSION") || Extends(t)
    requires (':' !in u && u != "EXTENSION") || Extends(u)
    requires t + ":" + a == u + ":" + b
    ensures t == u && a == b
  {
    if Extends(t) {
      var n :| ':' !in n && t == "EXTENSION" + ":" + n;
      ExtensionSplits(n, a, u, b);
    } else if Extends(u) {
      var n :| ':' !in n && u == "EXTENSION" + ":" + n;
      ExtensionSplits(n, b, t, a);
    } else {
      SplitFirstEqual(':', t, a, u, b);
    }
  }

  lemma ExtensionSplits(n: string, a: string, u: string, b: string)
    requires ':' !in n && ((':' !in u && u != "EXTENSION") || Extends(u))
    requires "EXTENSION" + ":" + n + ":" + a == u + ":" + b
    ensures u == "EXTENSION" + ":" + n && a == b
  {
    assert "EXTENSION" + ":" + n + ":" + a == "EXTENSION" + ":" + (n + ":" + a);
    if Extends(u) {
      var m :| ':' !in m && u == "EXTENSION" + ":" + m;
      assert u + ":" + b == "EXTENSION" + ":" + (m + ":" + b);
      SplitFirstEqual(':', "EXTENSION", n + ":" + a, "EXTENSION", m + ":" + b);
      SplitFirstEqual(':', n, a, m, b);
    } else {
      SplitFirstEqual(':', "EXTENSION", n + ":" + a, u, b);
    }
  }

  /** The text two edges are compared by is one exactly when type and both ends are. */
  lemma ComparableEdgesEqual(e: EdgeRecord, f: EdgeRecord)
    requires Separable(e) && Separable(f)
    ensures ComparableEdgeKey(e) == ComparableEdgeKey(f) <==> Alike(e, f)
  {
    hide ComparableObjectKey, Extends;
    if ComparableEdgeKey(e) == ComparableEdgeKey(f) {
      var a, b := ComparableObjectKey(e.edgeFrom), ComparableObjectKey(f.edgeFrom);
      var x, y := ComparableObjectKey(e.edgeTo), ComparableObjectKey(f.edgeTo);
      var left, right := e.edgeType + ":" + a + "-", f.edgeType + ":" + b + "-";
      assert ComparableEdgeKey(e) == left + ">" + x && ComparableEdgeKey(f) == right + ">" + y;
      SplitFirstEqual('>', left, x, right, y);
      assert left[..|left| - 1] == e.edgeType + ":" + a && right[..|right| - 1] == f.edgeType + ":" + b;
      TypesSplit(e.edgeType, a, f.edgeType, b);
    }
  }

  /** For edges between printed keys: both ends are the same key, or the same but for the alias. */
  lemma AlikeWhen(e: EdgeRecord, f: EdgeRecord, a: ObjectKey, b: ObjectKey, x: ObjectKey, y: ObjectKey)
    requires OwnSource(a) && OwnSource(b) && OwnSource(x) && OwnSource(y)
    requires e.edgeFrom == Print(a) && e.edgeTo == Print(b) && f.edgeFrom == Print(x) && f.edgeTo == Print(y)
    ensures Alike(e, f) <==> e.edgeType == f.edgeType && SameObject(a, x) && SameObject(b, y)
  {
    hide Print, ComparableObjectKey, OwnSource;
    ComparableKeysEqual(a, x);
    ComparableKeysEqual(b, y);
  }

  ghost predicate SameObject(a: ObjectKey, b: ObjectKey) {
    a == b || ([] !in Parts(a) && [] !in Parts(b) && WithoutAlias(a) == WithoutAlias(b))
  }

  // ----------------------------------------------------------------- the lists

  /** The listed rows are rows of one side, in the order of the texts they are compared by, and stand for
      those of its rows that have none alike on the other side. */
  ghost predicate OnlyIn<R(!new)>(listed: seq<R>, rows: set<R>, others: set<R>, alike: (R, R) -> bool,
                                  text: R -> string) {
    && (forall r :: r in listed ==> r in rows)
    && (forall i, j :: 0 <= i < j < |listed| ==>
          !alike(listed[i], listed[j]) && Less(ByText(text(listed[i])), ByText(text(listed[j]))))
    && forall r :: r in rows ==>
         ((exists x :: x in listed && alike(r, x)) <==> forall o :: o in others ==> !alike(r, o))
  }

  lemma MissingInOrder<R>(m: map<string, R>, n: map<string, R>, key: R -> string, listed: seq<R>)
    requires listed == MissingRows(m, n) && forall k :: k in m ==> key(m[k]) == k
    ensures forall i, j :: 0 <= i < j < |listed| ==> Less(ByText(key(listed[i])), ByText(key(listed[j])))
  {
    var keys := Missing(m, n);
    MissingHolds(m, n, keys);
    forall i | 0 <= i < |listed| ensures key(listed[i]) == keys[i] { assert keys[i] in keys; }
  }

  lemma MissingByKey<R(!new)>(rows: seq<R>, others: seq<R>, key: R -> string, listed: seq<R>)
    requires listed == MissingRows(Upserted(rows, key), Upserted(others, key))
    ensures forall r :: r in listed ==> r in rows
    ensures forall i, j :: 0 <= i < j < |listed| ==> Less(ByText(key(listed[i])), ByText(key(listed[j])))
    ensures forall r :: r in rows ==>
              ((exists x :: x in listed && key(r) == key(x)) <==> forall o :: o in others ==> key(r) != key(o))
  {
    hide MissingRows;
    var m, n := Upserted(rows, key), Upserted(others, key);
    UpsertedHolds(rows, key, m);
    UpsertedHolds(others, key, n);
    MissingRowsHold(m, n, key, listed);
    MissingInOrder(m, n, key, listed);
    forall r | r in rows
      ensures (exists x :: x in listed && key(r) == key(x)) <==> forall o :: o in others ==> key(r) != key(o) {
      assert key(r) in m;
      if key(r) !in n { assert m[key(r)] in listed; }
    }
  }

  lemma MissingAre<R(!new)>(rows: seq<R>, others: seq<R>, ours: set<R>, theirs: set<R>, alike: (R, R) -> bool,
                            key: R -> string, listed: seq<R>)
    requires listed == MissingRows(Upserted(rows, key), Upserted(others, key))
    requires (forall r :: r in ours <==> r in rows) && forall r :: r in theirs <==> r in others
    requires forall r, o :: r in ours && o in ours + theirs ==> (alike(r, o) <==> key(r) == key(o))
    ensures OnlyIn(listed, ours, theirs, alike, key)
  {
    hide MissingRows, Upserted, Less, ByText;
    MissingByKey(rows, others, key, listed);
    forall i, j | 0 <= i < j < |listed| ensures !alike(listed[i], listed[j]) {
      LessTotal(ByText(key(listed[i])), ByText(key(listed[j])));
      assert listed[i] in listed && listed[j] in listed;
    }
    forall r | r in ours
      ensures (exists x :: x in listed && alike(r, x)) <==> forall o :: o in theirs ==> !alike(r, o) {
      if x :| x in listed && alike(r, x) { assert key(r) == key(x); }
      if x :| x in listed && key(r) == key(x) { assert alike(r, x); }
    }
  }

  /** Nodes of one object, aliases aside. */
  ghost predicate SameNode(a: NodeRecord, b: NodeRecord) {
    ComparableObjectKey(a.nodeKey) == ComparableObjectKey(b.nodeKey)
  }

  /** The added nodes stand for the newer snapshot's nodes of objects the older lacks, and the removed ones
      the other way round. */
  lemma NodeListsAre(from: Graph, to: Graph)
    ensures OnlyIn(Compare(from, to).addedNodes, to.nodes.Values, from.nodes.Values, SameNode, ComparableNode)
    ensures OnlyIn(Compare(from, to).removedNodes, from.nodes.Values, to.nodes.Values, SameNode, ComparableNode)
  {
    hide OnlyIn, ComparableObjectKey, StoredNodes;
    StoredNodesAre(from);
    StoredNodesAre(to);
    MissingAre(StoredNodes(to), StoredNodes(from), to.nodes.Values, from.nodes.Values, SameNode, ComparableNode,
               Compare(from, to).addedNodes);
    MissingAre(StoredNodes(from), StoredNodes(to), from.nodes.Values, to.nodes.Values, SameNode, ComparableNode,
               Compare(from, to).removedNodes);
  }

  lemma StoredNodesAre(g: Graph)
    ensures forall n :: n in g.nodes.Values <==> n in StoredNodes(g)
  {
  }

  lemma StoredEdgesAre(g: Graph)
    ensures forall e :: e in g.edges.Values <==> e in StoredEdges(g)
  {
  }

  /** The same of the edges, when their texts cannot be misread. */
  lemma EdgeListsAre(from: Graph, to: Graph)
    requires forall e :: e in from.edges.Values + to.edges.Values ==> Separable(e)
    ensures OnlyIn(Compare(from, to).addedEdges, to.edges.Values, from.edges.Values, Alike, ComparableEdgeKey)
    ensures OnlyIn(Compare(from, to).removedEdges, from.edges.Values, to.edges.Values, Alike, ComparableEdgeKey)
  {
    hide OnlyIn, ComparableObjectKey, StoredEdges, Separable, Alike, ComparableEdgeKey;
    StoredEdgesAre(from);
    StoredEdgesAre(to);
    forall e, f | e in from.edges.Values + to.edges.Values && f in from.edges.Values + to.edges.Values
      ensures Alike(e, f) <==> ComparableEdgeKey(e) == ComparableEdgeKey(f) {
      ComparableEdgesEqual(e, f);
    }
    MissingAre(StoredEdges(to), StoredEdges(from), to.edges.Values, from.edges.Values, Alike, ComparableEdgeKey,
               Compare(from, to).addedEdges);
    MissingAre(StoredEdges(from), StoredEdges(to), from.edges.Values, to.edges.Values, Alike, ComparableEdgeKey,
               Compare(from, to).removedEdges);
  }
}
