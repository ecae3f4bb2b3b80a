/** What a breadth-first list of discoveries must satisfy for its depths to be distances. Both the
    impact analysis and the query traversal keep such a list; the queue is its unexpanded tail. */
module BreadthFirst {
  import opened Wrappers
  import opened Ordering
  import opened GraphModel
  import opened EdgeFetch
  import opened Reachability

  /** A discovered node, how deep, and the edge that led to it (none for the start). */
  datatype Found = Found(nodeKey: string, nodeLabel: string, displayName: Option<string>, depth: nat,
                         via: Option<EdgeRecord>)

  function Keys(order: seq<Found>): set<string> { set f | f in order :: f.nodeKey }

  ghost predicate Distinct(order: seq<Found>) {
    forall a, b :: 0 <= a < b < |order| ==> order[a].nodeKey != order[b].nodeKey
  }

  ghost predicate DepthsGrow(order: seq<Found>) {
    forall a, b :: 0 <= a < b < |order| ==> order[a].depth <= order[b].depth
  }

  /** The edge recorded for a discovery leads to it from an earlier one, one level up. */
  ghost predicate FoundFrom(adjacent: Adjacency, parent: Found, child: Found) {
    child.nodeKey in Next(adjacent, parent.nodeKey) && child.depth == parent.depth + 1
  }

  ghost predicate HasParent(adjacent: Adjacency, order: seq<Found>, j: nat, limit: nat)
    requires j < |order|
  {
    exists p :: 0 <= p < j && p < limit && FoundFrom(adjacent, order[p], order[j])
  }

  ghost predicate FoundWithin(order: seq<Found>, node: string, d: nat) {
    exists f :: f in order && f.nodeKey == node && f.depth <= d
  }

  ghost predicate Expanded(adjacent: Adjacency, order: seq<Found>, f: Found) {
    forall v :: v in Next(adjacent, f.nodeKey) ==> FoundWithin(order, v, f.depth + 1)
  }

  /** The first `done` discoveries are expanded; only those before `limit` have children. */
  ghost predicate Explored(adjacent: Adjacency, start: string, maxDepth: nat, order: seq<Found>, done: nat,
                           limit: nat) {
    && 0 < |order| && order[0].nodeKey == start && order[0].depth == 0
    && done <= limit <= done + 1 && done <= |order|
    && Distinct(order) && DepthsGrow(order)
    && (forall f :: f in order ==> f.depth <= maxDepth)
    && (forall j :: 0 < j < |order| ==> HasParent(adjacent, order, j, limit))
    && (forall p :: 0 <= p < done && order[p].depth < maxDepth ==> Expanded(adjacent, order, order[p]))
  }

  /** Every discovery is as close as its depth says. */
  lemma {:induction false} FoundInBall(adjacent: Adjacency, start: string, maxDepth: nat,
                                       order: seq<Found>, done: nat, limit: nat, j: nat)
    requires Explored(adjacent, start, maxDepth, order, done, limit) && j < |order|
    ensures order[j].nodeKey in Ball(adjacent, start, order[j].depth)
  {
    if j > 0 {
      assert HasParent(adjacent, order, j, limit);
      var p :| 0 <= p < j && p < limit && FoundFrom(adjacent, order[p], order[j]);
      FoundInBall(adjacent, start, maxDepth, order, done, limit, p);
      assert order[j] in order;
      assert order[j].nodeKey in Next(adjacent, order[p].nodeKey);
    }
  }

  /** Once everything closer than `n` is expanded, everything within `n` is discovered. */
  lemma {:induction false} BallIsFound(adjacent: Adjacency, start: string, maxDepth: nat,
                                       order: seq<Found>, done: nat, limit: nat, n: nat)
    requires Explored(adjacent, start, maxDepth, order, done, limit) && n <= maxDepth
    requires forall p :: 0 <= p < |order| && order[p].depth < n ==> p < done
    ensures forall v :: v in Ball(adjacent, start, n) ==> FoundWithin(order, v, n)
  {
    if n == 0 {
      assert order[0] in order;
    } else {
      BallIsFound(adjacent, start, maxDepth, order, done, limit, n - 1);
      forall v | v in Ball(adjacent, start, n) ensures FoundWithin(order, v, n) {
        if v in Ball(adjacent, start, n - 1) {
          assert FoundWithin(order, v, n - 1);
        } else {
          var u :| u in Ball(adjacent, start, n - 1) && v in Next(adjacent, u);
          assert FoundWithin(order, u, n - 1);
          var f :| f in order && f.nodeKey == u && f.depth <= n - 1;
          var p :| 0 <= p < |order| && order[p] == f;
          assert Expanded(adjacent, order, order[p]);
          assert FoundWithin(order, v, f.depth + 1);
        }
      }
    }
  }

  /** The depth of a discovery is its distance, even when the search is still under way. */
  lemma DepthIsDistance(adjacent: Adjacency, start: string, maxDepth: nat,
                        order: seq<Found>, done: nat, limit: nat, j: nat)
    requires Explored(adjacent, start, maxDepth, order, done, limit) && j < |order|
    ensures AtDistance(adjacent, start, order[j].nodeKey, order[j].depth)
  {
    FoundInBall(adjacent, start, maxDepth, order, done, limit, j);
    if order[j].depth > 0 {
      ExpandedAbove(adjacent, start, maxDepth, order, done, limit, j);
      assert order[j] in order;
      BallIsFound(adjacent, start, maxDepth, order, done, limit, order[j].depth - 1);
      FoundOnce(order, j);
    }
  }

  lemma ExpandedAbove(adjacent: Adjacency, start: string, maxDepth: nat,
                      order: seq<Found>, done: nat, limit: nat, j: nat)
    requires Explored(adjacent, start, maxDepth, order, done, limit) && j < |order| && order[j].depth > 0
    ensures forall q :: 0 <= q < |order| && order[q].depth < order[j].depth - 1 ==> q < done
  {
    assert HasParent(adjacent, order, j, limit);
    var p :| 0 <= p < j && p < limit && FoundFrom(adjacent, order[p], order[j]);
    assert forall q :: p <= q < |order| ==> order[p].depth <= order[q].depth;
  }

  lemma FoundOnce(order: seq<Found>, j: nat)
    requires Distinct(order) && j < |order| && order[j].depth > 0
    ensures !FoundWithin(order, order[j].nodeKey, order[j].depth - 1)
  {
  }

  lemma NotFound(order: seq<Found>, node: string, d: nat)
    requires node !in Keys(order)
    ensures !FoundWithin(order, node, d)
  {
  }

  /** When the search stops at discovery `done`, what it has not discovered is at least as far as
      anything it has. */
  lemma UndiscoveredIsFarther(adjacent: Adjacency, start: string, maxDepth: nat,
                              order: seq<Found>, done: nat, limit: nat, node: string, e: nat)
    requires Explored(adjacent, start, maxDepth, order, done, limit) && done < |order|
    requires e <= maxDepth && node in Ball(adjacent, start, e) && node !in Keys(order)
    ensures forall f :: f in order ==> f.depth <= e
  {
    NotFound(order, node, e);
    if e <= order[done].depth {
      BallIsFound(adjacent, start, maxDepth, order, done, limit, e);
    }
    forall f | f in order ensures f.depth <= e {
      var j :| 0 <= j < |order| && order[j] == f;
      if j > 0 {
        assert HasParent(adjacent, order, j, limit);
        var p :| 0 <= p < j && p < limit && FoundFrom(adjacent, order[p], order[j]);
        assert order[p].depth <= order[done].depth;
      }
    }
  }

  /** When every discovery is expanded, the discoveries are exactly the nodes within reach. */
  lemma AllExpanded(adjacent: Adjacency, start: string, maxDepth: nat, order: seq<Found>, limit: nat)
    requires Explored(adjacent, start, maxDepth, order, |order|, limit)
    ensures Keys(order) == Ball(adjacent, start, maxDepth)
  {
    BallIsFound(adjacent, start, maxDepth, order, |order|, limit, maxDepth);
    forall v | v in Ball(adjacent, start, maxDepth) ensures v in Keys(order) {
      assert FoundWithin(order, v, maxDepth);
    }
    forall v | v in Keys(order) ensures v in Ball(adjacent, start, maxDepth) {
      var f :| f in order && f.nodeKey == v;
      var j :| 0 <= j < |order| && order[j] == f;
      FoundInBall(adjacent, start, maxDepth, order, |order|, limit, j);
      BallGrows(adjacent, start, f.depth, maxDepth);
    }
  }

  // ------------------------------------------------ following one node's edges

  function Discovery(nodes: map<string, NodeRecord>, parent: Found, hop: Hop): Found
    requires hop.next in nodes
  {
    Found(hop.next, nodes[hop.next].nodeLabel, nodes[hop.next].displayName, parent.depth + 1, Some(hop.edge))
  }

  function AbsorbOne(nodes: map<string, NodeRecord>, parent: Found, hop: Hop, order: seq<Found>): seq<Found> {
    if hop.next in Keys(order) || hop.next !in nodes then order else order + [Discovery(nodes, parent, hop)]
  }

  /** The list of discoveries after following the edges of one node. */
  function Absorb(nodes: map<string, NodeRecord>, parent: Found, hops: seq<Hop>, order: seq<Found>): seq<Found> {
    if hops == [] then order else Absorb(nodes, parent, hops[1..], AbsorbOne(nodes, parent, hops[0], order))
  }

  lemma {:induction false} AbsorbSplit(nodes: map<string, NodeRecord>, parent: Found, a: seq<Hop>, b: seq<Hop>,
                                       order: seq<Found>)
    ensures Absorb(nodes, parent, a + b, order) == Absorb(nodes, parent, b, Absorb(nodes, parent, a, order))
    decreases |a|
  {
    if a == [] {
      assert a + b == b;
    } else {
      assert (a + b)[1..] == a[1..] + b;
      AbsorbSplit(nodes, parent, a[1..], b, AbsorbOne(nodes, parent, a[0], order));
    }
  }

  ghost predicate Stored(nodes: map<string, NodeRecord>, order: seq<Found>) {
    forall f :: f in order ==>
      f.nodeKey in nodes && f.nodeLabel == nodes[f.nodeKey].nodeLabel && f.displayName == nodes[f.nodeKey].displayName
  }

  lemma {:induction false} AbsorbKeepsList(nodes: map<string, NodeRecord>, parent: Found, hops: seq<Hop>,
                                           order: seq<Found>)
    requires Distinct(order) && Stored(nodes, order)
    ensures var after := Absorb(nodes, parent, hops, order);
            order <= after && Distinct(after) && Stored(nodes, after) && |after| <= |order| + |hops|
    decreases |hops|
  {
    if hops != [] {
      var one := AbsorbOne(nodes, parent, hops[0], order);
      if one != order { DistinctLonger(order, Discovery(nodes, parent, hops[0])); }
      AbsorbKeepsList(nodes, parent, hops[1..], one);
    }
  }

  lemma {:induction false} DistinctBound(nodes: map<string, NodeRecord>, order: seq<Found>)
    requires Distinct(order) && Stored(nodes, order)
    ensures |order| <= |nodes|
  {
    KeysCount(order);
    SubsetCount(Keys(order), nodes.Keys);
  }

  lemma {:induction false} KeysCount(order: seq<Found>)
    requires Distinct(order)
    ensures |Keys(order)| == |order|
  {
    if order != [] {
      KeysCount(order[1..]);
      assert order == [order[0]] + order[1..];
      assert Keys(order) == {order[0].nodeKey} + Keys(order[1..]);
    }
  }

  lemma FoundLater(order: seq<Found>, after: seq<Found>)
    requires order <= after
    ensures forall v, d :: FoundWithin(order, v, d) ==> FoundWithin(after, v, d)
  {
    forall v, d | FoundWithin(order, v, d) ensures FoundWithin(after, v, d) {
      var f :| f in order && f.nodeKey == v && f.depth <= d;
      assert f in after;
    }
  }

  lemma AbsorbOneKeeps(adjacent: Adjacency, nodes: map<string, NodeRecord>, start: string, maxDepth: nat,
                       order: seq<Found>, i: nat, hop: Hop)
    requires Explored(adjacent, start, maxDepth, order, i, i + 1) && i < |order| && order[i].depth < maxDepth
    requires hop.next in nodes ==> hop.next in Next(adjacent, order[i].nodeKey)
    ensures var after := AbsorbOne(nodes, order[i], hop, order);
            && order <= after && Explored(adjacent, start, maxDepth, after, i, i + 1)
            && (hop.next in nodes ==> FoundWithin(after, hop.next, order[i].depth + 1))
  {
    var after := AbsorbOne(nodes, order[i], hop, order);
    DepthsBelow(adjacent, start, maxDepth, order, i);
    FoundLater(order, after);
    if hop.next in nodes && hop.next !in Keys(order) {
      var last := Discovery(nodes, order[i], hop);
      assert after[|order|] == last && last in after;
      assert FoundFrom(adjacent, after[i], after[|order|]);
      ParentsLater(adjacent, order, after, i + 1);
      DistinctLonger(order, last);
    }
  }

  lemma ParentsLater(adjacent: Adjacency, order: seq<Found>, after: seq<Found>, limit: nat)
    requires order <= after && forall j :: 0 < j < |order| ==> HasParent(adjacent, order, j, limit)
    ensures forall j :: 0 < j < |order| ==> HasParent(adjacent, after, j, limit)
  {
    forall j | 0 < j < |order| ensures HasParent(adjacent, after, j, limit) {
      assert HasParent(adjacent, order, j, limit);
      var p :| 0 <= p < j && p < limit && FoundFrom(adjacent, order[p], order[j]);
      assert FoundFrom(adjacent, after[p], after[j]);
    }
  }

  lemma DistinctLonger(order: seq<Found>, last: Found)
    requires Distinct(order) && last.nodeKey !in Keys(order)
    ensures Distinct(order + [last])
  {
    var after := order + [last];
    forall a, b | 0 <= a < b < |after| ensures after[a].nodeKey != after[b].nodeKey { assert order[a] in order; }
  }

  lemma DepthsBelow(adjacent: Adjacency, start: string, maxDepth: nat, order: seq<Found>, i: nat)
    requires Explored(adjacent, start, maxDepth, order, i, i + 1) && i < |order|
    ensures forall f :: f in order ==> f.depth <= order[i].depth + 1
  {
    forall f | f in order ensures f.depth <= order[i].depth + 1 {
      var j :| 0 <= j < |order| && order[j] == f;
      if j > 0 {
        assert HasParent(adjacent, order, j, i + 1);
        var p :| 0 <= p < j && p < i + 1 && FoundFrom(adjacent, order[p], order[j]);
        assert order[p].depth <= order[i].depth;
      }
    }
  }

  lemma {:induction false} AbsorbKeeps(adjacent: Adjacency, nodes: map<string, NodeRecord>, start: string,
                                       maxDepth: nat,
                                       order: seq<Found>, i: nat, hops: seq<Hop>)
    requires Explored(adjacent, start, maxDepth, order, i, i + 1) && i < |order| && order[i].depth < maxDepth
    requires forall h :: h in hops && h.next in nodes ==> h.next in Next(adjacent, order[i].nodeKey)
    ensures var after := Absorb(nodes, order[i], hops, order);
            && order <= after && Explored(adjacent, start, maxDepth, after, i, i + 1)
            && (forall h :: h in hops && h.next in nodes ==> FoundWithin(after, h.next, order[i].depth + 1))
    decreases |hops|
  {
    if hops != [] {
      AbsorbOneKeeps(adjacent, nodes, start, maxDepth, order, i, hops[0]);
      var one := AbsorbOne(nodes, order[i], hops[0], order);
      AbsorbKeeps(adjacent, nodes, start, maxDepth, one, i, hops[1..]);
      FoundLater(one, Absorb(nodes, order[i], hops, order));
      assert hops == [hops[0]] + hops[1..];
    }
  }

  /** Following all edges of the next node keeps the list explored, one node further. */
  lemma StepKeeps(adjacent: Adjacency, nodes: map<string, NodeRecord>, start: string, maxDepth: nat,
                  order: seq<Found>, i: nat, hops: seq<Hop>)
    requires Explored(adjacent, start, maxDepth, order, i, i) && i < |order| && order[i].depth < maxDepth
    requires forall h :: h in hops && h.next in nodes ==> h.next in Next(adjacent, order[i].nodeKey)
    ensures var after := Absorb(nodes, order[i], hops, order);
            && order <= after
            && Explored(adjacent, start, maxDepth, after, i, i + 1)
            && ((forall v :: v in Next(adjacent, order[i].nodeKey) ==>
                 exists h :: h in hops && h.next == v && v in nodes)
                ==> Explored(adjacent, start, maxDepth, after, i + 1, i + 1))
  {
    LimitGrows(adjacent, start, maxDepth, order, i);
    AbsorbKeeps(adjacent, nodes, start, maxDepth, order, i, hops);
    var after := Absorb(nodes, order[i], hops, order);
    if forall v :: v in Next(adjacent, order[i].nodeKey) ==> exists h :: h in hops && h.next == v && v in nodes {
      assert Expanded(adjacent, after, after[i]);
      NextExpanded(adjacent, start, maxDepth, after, i);
    }
  }

  lemma NextExpanded(adjacent: Adjacency, start: string, maxDepth: nat, order: seq<Found>, i: nat)
    requires Explored(adjacent, start, maxDepth, order, i, i + 1) && i < |order| && Expanded(adjacent, order, order[i])
    ensures Explored(adjacent, start, maxDepth, order, i + 1, i + 1)
  {
  }

  lemma LimitGrows(adjacent: Adjacency, start: string, maxDepth: nat, order: seq<Found>, i: nat)
    requires Explored(adjacent, start, maxDepth, order, i, i) && i < |order|
    ensures Explored(adjacent, start, maxDepth, order, i, i + 1)
    ensures order[i].depth == maxDepth ==> Explored(adjacent, start, maxDepth, order, i + 1, i + 1)
  {
    var limit := i + 1;
    forall j | 0 < j < |order| ensures HasParent(adjacent, order, j, limit) {
      assert HasParent(adjacent, order, j, i);
    }
  }
}
