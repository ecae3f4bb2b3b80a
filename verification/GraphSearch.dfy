/** The budgeted breadth-first search behind the impact analysis, over whatever edges a fetch returns. */
module GraphSearch {
  import opened Wrappers
  import opened Ordering
  import opened GraphModel
  import opened EdgeFetch
  import opened Reachability
  import opened BreadthFirst

  /** What a search sees of a graph: its nodes, the hops at each node, and who is next to whom. */
  datatype Net = Net(nodes: map<string, NodeRecord>, hops: map<string, set<Hop>>, adjacent: Adjacency)

  /** Returns the hops to follow from a node within a budget, and whether there are more. */
  type Fetcher = (string, Budget) -> (seq<Hop>, bool)

  ghost predicate Sound(net: Net, fetch: Fetcher) {
    forall u, b: Budget :: u in net.nodes ==>
      && u in net.hops
      && (forall h :: h in fetch(u, b).0 ==>
           h in net.hops[u] && (h.next in net.nodes ==> h.next in Next(net.adjacent, u)))
      && (!fetch(u, b).1 ==> forall v :: v in Next(net.adjacent, u) ==>
          exists h :: h in fetch(u, b).0 && h.next == v && v in net.nodes)
      && (b < USIZE_MAX ==> |fetch(u, b).0| <= b)
      && (b == USIZE_MAX ==> !fetch(u, b).1)
  }

  /** A smaller budget returns a prefix, and the same when it did not cut. */
  ghost predicate Monotone(fetch: Fetcher) {
    forall u, b1: Budget, b2: Budget :: b1 <= b2 < USIZE_MAX ==>
      fetch(u, b1).0 <= fetch(u, b2).0 && (!fetch(u, b1).1 ==> fetch(u, b1) == fetch(u, b2))
  }

  function StartOf(net: Net, key: string): Found
    requires key in net.nodes
  {
    Found(key, net.nodes[key].nodeLabel, net.nodes[key].displayName, 0, None)
  }

  function Spend(budget: Budget, used: nat): Budget {
    if budget == USIZE_MAX then USIZE_MAX else if used <= budget then budget - used else 0
  }

  /** The traversal from a given point on: the discoveries, and whether the budget cut them. */
  function Explore(net: Net, fetch: Fetcher, maxDepth: nat, order: seq<Found>, done: nat, budget: Budget): (seq<Found>,
          bool)
    requires Distinct(order) && Stored(net.nodes, order) && done <= |order|
    decreases |net.nodes| - done
  {
    DistinctBound(net.nodes, order);
    if done == |order| then (order, false)
    else if order[done].depth == maxDepth then Explore(net, fetch, maxDepth, order, done + 1, budget)
    else
      var (hops, more) := fetch(order[done].nodeKey, budget);
      AbsorbKeepsList(net.nodes, order[done], hops, order);
      var after := Absorb(net.nodes, order[done], hops, order);
      if more then (after, true) else Explore(net, fetch, maxDepth, after, done + 1, Spend(budget, |hops|))
  }

  /** One round of the traversal, spelled out. */
  lemma ExploreRound(net: Net, fetch: Fetcher, maxDepth: nat, order: seq<Found>, done: nat, budget: Budget,
                     hops: seq<Hop>, more: bool)
    requires Distinct(order) && Stored(net.nodes, order) && done < |order|
    requires order[done].depth != maxDepth && fetch(order[done].nodeKey, budget) == (hops, more)
    ensures var after := Absorb(net.nodes, order[done], hops, order);
            && order <= after && Distinct(after) && Stored(net.nodes, after)
            && Explore(net, fetch, maxDepth, order, done, budget)
               == if more then (after, true) else Explore(net, fetch, maxDepth, after, done + 1, Spend(budget, |hops|))
  {
    AbsorbKeepsList(net.nodes, order[done], hops, order);
  }

  lemma ExploreSkip(net: Net, fetch: Fetcher, maxDepth: nat, order: seq<Found>, done: nat, budget: Budget)
    requires Distinct(order) && Stored(net.nodes, order) && done < |order| && order[done].depth == maxDepth
    ensures Explore(net, fetch, maxDepth, order, done, budget) == Explore(net, fetch, maxDepth, order, done + 1, budget)
  {
  }

  /** The whole search: the nodes found in the order of discovery, and the truncation flag. */
  function Search(net: Net, fetch: Fetcher, start: string, maxDepth: nat, budget: Budget): (seq<Found>, bool) {
    if start !in net.nodes then ([], false)
    else
      var (found, truncated) := Explore(net, fetch, maxDepth, [StartOf(net, start)], 0, budget);
      (if found == [] then [] else found[1..], truncated)
  }

  // -------------------------------------------------------------- properties

  /** The edge recorded for a node joins it to a node one step closer to the start. */
  ghost predicate Justified(net: Net, start: string, f: Found) {
    && f.via.Some? && f.depth > 0
    && exists u ::
         u in net.hops && AtDistance(net.adjacent, start, u, f.depth - 1) && Hop(f.via.value, f.nodeKey) in net.hops[u]
  }

  /** Every node found is a stored one, listed once, within the depth, at the distance it says. */
  ghost predicate ExactDistances(net: Net, start: string, maxDepth: nat, nodes: seq<Found>) {
    && Distinct(nodes) && Stored(net.nodes, nodes) && DepthsGrow(nodes)
    && forall f :: f in nodes ==>
         1 <= f.depth <= maxDepth && AtDistance(net.adjacent, start, f.nodeKey, f.depth) && Justified(net, start, f)
  }

  /** No node left out is strictly closer than a node found. */
  ghost predicate NearestFirst(net: Net, start: string, maxDepth: nat, nodes: seq<Found>) {
    forall v, e :: 0 <= e <= maxDepth && v in Ball(net.adjacent, start, e) && v != start && v !in Keys(nodes)
      ==> forall f :: f in nodes ==> f.depth <= e
  }

  ghost predicate HasEdge(net: Net, order: seq<Found>, j: nat)
    requires j < |order|
  {
    && order[j].via.Some?
    && exists p :: 0 <= p < j && order[p].depth + 1 == order[j].depth
         && order[p].nodeKey in net.hops && Hop(order[j].via.value, order[j].nodeKey) in net.hops[order[p].nodeKey]
  }

  /** The discoveries so far with their edges: what the loop keeps. */
  ghost predicate Searching(net: Net, start: string, maxDepth: nat, order: seq<Found>, done: nat, limit: nat) {
    && Explored(net.adjacent, start, maxDepth, order, done, limit)
    && Stored(net.nodes, order)
    && forall j :: 0 < j < |order| ==> HasEdge(net, order, j)
  }

  lemma HasEdgeLater(net: Net, order: seq<Found>, after: seq<Found>)
    requires order <= after && forall j :: 0 < j < |order| ==> HasEdge(net, order, j)
    ensures forall j :: 0 < j < |order| ==> HasEdge(net, after, j)
  {
    forall j | 0 < j < |order| ensures HasEdge(net, after, j) {
      assert HasEdge(net, order, j);
      var p :| 0 <= p < j && order[p].depth + 1 == order[j].depth
               && order[p].nodeKey in net.hops
                  && Hop(order[j].via.value, order[j].nodeKey) in net.hops[order[p].nodeKey];
      assert after[p] == order[p] && after[j] == order[j];
    }
  }

  lemma {:induction false} AbsorbHasEdges(net: Net, parent: Found, order: seq<Found>, i: nat, hops: seq<Hop>,
                                          after: seq<Found>)
    requires i < |order| && order[i] == parent && parent.nodeKey in net.hops
    requires after == Absorb(net.nodes, parent, hops, order)
    requires forall j :: 0 < j < |order| ==> HasEdge(net, order, j)
    requires forall h :: h in hops ==> h in net.hops[parent.nodeKey]
    ensures forall j :: 0 < j < |after| ==> HasEdge(net, after, j)
    decreases |hops|
  {
    if hops != [] {
      var one := AbsorbOne(net.nodes, parent, hops[0], order);
      HasEdgeLater(net, order, one);
      assert one[i] == parent;
      assert |one| > |order| ==> one[|order|] == Discovery(net.nodes, parent, hops[0]);
      AbsorbHasEdges(net, parent, one, i, hops[1..], after);
    }
  }

  /** One round of the loop keeps the search invariant. */
  lemma RoundKeeps(net: Net, fetch: Fetcher, start: string, maxDepth: nat, order: seq<Found>, done: nat, budget: Budget,
                   hops: seq<Hop>, more: bool)
    requires Sound(net, fetch)
    requires Searching(net, start, maxDepth, order, done, done) && done < |order| && order[done].depth < maxDepth
    requires (hops, more) == fetch(order[done].nodeKey, budget)
    ensures var after := Absorb(net.nodes, order[done], hops, order);
            && order <= after && |after| <= |order| + |hops|
            && Searching(net, start, maxDepth, after, done, done + 1)
            && (!more ==> Searching(net, start, maxDepth, after, done + 1, done + 1))
            && (budget < USIZE_MAX ==> |hops| <= budget)
            && (budget == USIZE_MAX ==> !more)
  {
    assert order[done] in order;
    assert fetch(order[done].nodeKey, budget) == (hops, more);
    StepKeeps(net.adjacent, net.nodes, start, maxDepth, order, done, hops);
    AbsorbHasEdges(net, order[done], order, done, hops, Absorb(net.nodes, order[done], hops, order));
    AbsorbKeepsList(net.nodes, order[done], hops, order);
  }

  /** Where a traversal ends: at a cut, with everything before `last` expanded, or with nothing left. */
  ghost predicate Ended(net: Net, start: string, maxDepth: nat, found: seq<Found>, truncated: bool, last: nat) {
    if truncated then last < |found| && Searching(net, start, maxDepth, found, last, last + 1)
    else Searching(net, start, maxDepth, found, |found|, |found|)
  }

  lemma {:induction false} ExploreEnds(net: Net, fetch: Fetcher, start: string, maxDepth: nat,
                                       order: seq<Found>, done: nat, budget: Budget) returns (last: nat)
    requires Sound(net, fetch) && Searching(net, start, maxDepth, order, done, done)
    ensures var (found, truncated) := Explore(net, fetch, maxDepth, order, done, budget);
            && order <= found && Ended(net, start, maxDepth, found, truncated, last)
            && (budget < USIZE_MAX ==> |found| <= |order| + budget)
            && (budget == USIZE_MAX ==> !truncated)
    decreases |net.nodes| - done
  {
    DistinctBound(net.nodes, order);
    last := done;
    if done == |order| {
    } else if order[done].depth == maxDepth {
      LimitGrows(net.adjacent, start, maxDepth, order, done);
      last := ExploreEnds(net, fetch, start, maxDepth, order, done + 1, budget);
    } else {
      assert order[done] in order;
      var (hops, more) := fetch(order[done].nodeKey, budget);
      var after := Absorb(net.nodes, order[done], hops, order);
      RoundKeeps(net, fetch, start, maxDepth, order, done, budget, hops, more);
      if !more {
        last := ExploreEnds(net, fetch, start, maxDepth, after, done + 1, Spend(budget, |hops|));
      }
    }
  }

  /** The main theorem, for every graph, start, depth and budget, cut or not. */
  lemma SearchIsExact(net: Net, fetch: Fetcher, start: string, maxDepth: nat, budget: Budget)
    requires Sound(net, fetch) && start in net.nodes
    ensures var (nodes, truncated) := Search(net, fetch, start, maxDepth, budget);
            && ExactDistances(net, start, maxDepth, nodes)
            && NearestFirst(net, start, maxDepth, nodes)
            && (!truncated ==> Keys(nodes) == Ball(net.adjacent, start, maxDepth) - {start})
            && (budget < USIZE_MAX ==> |nodes| <= budget)
            && (budget == USIZE_MAX ==> !truncated)
  {
    var order := [StartOf(net, start)];
    assert Searching(net, start, maxDepth, order, 0, 0);
    var last := ExploreEnds(net, fetch, start, maxDepth, order, 0, budget);
    var (found, truncated) := Explore(net, fetch, maxDepth, order, 0, budget);
    assert found[0] == order[0];
    if truncated {
      FoundAreExact(net, start, maxDepth, found, last, last + 1);
      CutIsNearest(net, start, maxDepth, found, last);
    } else {
      FoundAreExact(net, start, maxDepth, found, |found|, |found|);
      UncutIsComplete(net, start, maxDepth, found);
    }
  }

  lemma FoundAreExact(net: Net, start: string, maxDepth: nat, found: seq<Found>, done: nat, limit: nat)
    requires Searching(net, start, maxDepth, found, done, limit)
    ensures ExactDistances(net, start, maxDepth, found[1..])
  {
    forall f | f in found[1..]
      ensures 1 <= f.depth <= maxDepth && AtDistance(net.adjacent, start, f.nodeKey, f.depth)
              && Justified(net, start, f)
    {
      var j :| 1 <= j < |found| && found[j] == f;
      FoundIsExact(net, start, maxDepth, found, done, limit, j);
    }
  }

  lemma FoundIsExact(net: Net, start: string, maxDepth: nat, found: seq<Found>, done: nat, limit: nat, j: nat)
    requires Searching(net, start, maxDepth, found, done, limit) && 0 < j < |found|
    ensures 1 <= found[j].depth <= maxDepth
    ensures AtDistance(net.adjacent, start, found[j].nodeKey, found[j].depth) && Justified(net, start, found[j])
  {
    DepthIsDistance(net.adjacent, start, maxDepth, found, done, limit, j);
    assert HasEdge(net, found, j);
    var p :| 0 <= p < j && found[p].depth + 1 == found[j].depth
             && found[p].nodeKey in net.hops && Hop(found[j].via.value, found[j].nodeKey) in net.hops[found[p].nodeKey];
    DepthIsDistance(net.adjacent, start, maxDepth, found, done, limit, p);
    assert found[j] in found;
  }

  lemma CutIsNearest(net: Net, start: string, maxDepth: nat, found: seq<Found>, last: nat)
    requires Searching(net, start, maxDepth, found, last, last + 1) && last < |found|
    ensures NearestFirst(net, start, maxDepth, found[1..])
  {
    forall v, e | 0 <= e <= maxDepth && v in Ball(net.adjacent, start, e) && v != start && v !in Keys(found[1..])
      ensures forall f :: f in found[1..] ==> f.depth <= e
    {
      assert found == [found[0]] + found[1..];
      assert v !in Keys(found);
      UndiscoveredIsFarther(net.adjacent, start, maxDepth, found, last, last + 1, v, e);
    }
  }

  lemma UncutIsComplete(net: Net, start: string, maxDepth: nat, found: seq<Found>)
    requires Searching(net, start, maxDepth, found, |found|, |found|)
    ensures Keys(found[1..]) == Ball(net.adjacent, start, maxDepth) - {start}
    ensures NearestFirst(net, start, maxDepth, found[1..])
  {
    AllExpanded(net.adjacent, start, maxDepth, found, |found|);
    assert found == [found[0]] + found[1..];
    assert Keys(found) == Keys(found[1..]) + {start};
    forall v, e | 0 <= e <= maxDepth && v in Ball(net.adjacent, start, e) && v != start ensures v in Keys(found[1..]) {
      BallGrows(net.adjacent, start, e, maxDepth);
    }
  }

  // ------------------------------------------------------------- budget laws

  /** With a smaller budget the search makes the same discoveries and stops earlier. */
  lemma {:induction false} ExploreMonotone(net: Net, fetch: Fetcher, maxDepth: nat, order: seq<Found>, done: nat,
                                           b1: Budget, b2: Budget)
    requires Monotone(fetch) && b1 <= b2 < USIZE_MAX
    requires Distinct(order) && Stored(net.nodes, order) && done <= |order|
    ensures var (few, cut) := Explore(net, fetch, maxDepth, order, done, b1);
            var many := Explore(net, fetch, maxDepth, order, done, b2);
            order <= few && few <= many.0 && (!cut ==> (few, cut) == many)
    decreases |net.nodes| - done
  {
    DistinctBound(net.nodes, order);
    if done < |order| {
      if order[done].depth == maxDepth {
        ExploreMonotone(net, fetch, maxDepth, order, done + 1, b1, b2);
      } else {
        var (hops1, more1) := fetch(order[done].nodeKey, b1);
        var (hops2, more2) := fetch(order[done].nodeKey, b2);
        var after1, after2 := Absorb(net.nodes, order[done], hops1, order),
            Absorb(net.nodes, order[done], hops2, order);
        AbsorbPrefix(net.nodes, order[done], hops1, hops2, order);
        if !more1 {
          ExploreMonotone(net, fetch, maxDepth, after1, done + 1, Spend(b1, |hops1|), Spend(b2, |hops1|));
        } else if !more2 {
          var rest := Spend(b2, |hops2|);
          ExploreMonotone(net, fetch, maxDepth, after2, done + 1, rest, rest);
        }
      }
    }
  }

  lemma AbsorbPrefix(nodes: map<string, NodeRecord>, parent: Found, a: seq<Hop>, b: seq<Hop>, order: seq<Found>)
    requires a <= b && Distinct(order) && Stored(nodes, order)
    ensures order <= Absorb(nodes, parent, a, order) <= Absorb(nodes, parent, b, order)
    ensures Distinct(Absorb(nodes, parent, a, order)) && Stored(nodes, Absorb(nodes, parent, a, order))
    ensures Distinct(Absorb(nodes, parent, b, order)) && Stored(nodes, Absorb(nodes, parent, b, order))
  {
    assert b == a + b[|a|..];
    AbsorbSplit(nodes, parent, a, b[|a|..], order);
    AbsorbKeepsList(nodes, parent, a, order);
    AbsorbKeepsList(nodes, parent, b[|a|..], Absorb(nodes, parent, a, order));
  }

  /** The discoveries under a finite budget are a prefix of those under any larger finite one. */
  lemma SearchMonotone(net: Net, fetch: Fetcher, start: string, maxDepth: nat, b1: Budget, b2: Budget)
    requires Monotone(fetch) && b1 <= b2 < USIZE_MAX
    ensures Search(net, fetch, start, maxDepth, b1).0 <= Search(net, fetch, start, maxDepth, b2).0
    ensures !Search(net, fetch, start, maxDepth, b1).1 ==>
              Search(net, fetch, start, maxDepth, b1) == Search(net, fetch, start, maxDepth, b2)
  {
    if start in net.nodes {
      ExploreMonotone(net, fetch, maxDepth, [StartOf(net, start)], 0, b1, b2);
    }
  }

  ghost function Depths(nodes: seq<Found>): set<(string, nat)> { set f | f in nodes :: (f.nodeKey, f.depth) }

  /** A search that was not cut finds the nodes and depths of the unbounded one. */
  lemma UncutIsUnbounded(net: Net, fetch: Fetcher, start: string, maxDepth: nat, budget: Budget)
    requires Sound(net, fetch) && !Search(net, fetch, start, maxDepth, budget).1
    ensures Depths(Search(net, fetch, start, maxDepth, budget).0)
            == Depths(Search(net, fetch, start, maxDepth, USIZE_MAX).0)
  {
    if start in net.nodes {
      SearchIsExact(net, fetch, start, maxDepth, budget);
      SearchIsExact(net, fetch, start, maxDepth, USIZE_MAX);
      var a, b := Search(net, fetch, start, maxDepth, budget).0, Search(net, fetch, start, maxDepth, USIZE_MAX).0;
      SameDepths(net, start, maxDepth, a, b);
      SameDepths(net, start, maxDepth, b, a);
    }
  }

  lemma SameDepths(net: Net, start: string, maxDepth: nat, a: seq<Found>, b: seq<Found>)
    requires ExactDistances(net, start, maxDepth, a) && ExactDistances(net, start, maxDepth, b)
    requires Keys(a) == Keys(b)
    ensures Depths(a) <= Depths(b)
  {
    forall f | f in a ensures (f.nodeKey, f.depth) in Depths(b) {
      assert f.nodeKey in Keys(b);
      var h :| h in b && h.nodeKey == f.nodeKey;
      DistanceUnique(net.adjacent, start, f.nodeKey, f.depth, h.depth);
    }
  }
}
