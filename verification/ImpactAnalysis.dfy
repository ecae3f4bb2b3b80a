/** Impact analysis: breadth-first over the stored graph with an edge budget (impact_analysis.rs). */
module ImpactAnalysis {
  import opened Wrappers
  import opened Ordering
  import opened GraphModel
  import opened EdgeFetch
  import opened Reachability
  import opened BreadthFirst
  import opened GraphSearch
  import opened FollowedHops

  /** The stored graph as a search sees it, in the wanted direction. */
  function NetOf(g: Graph, direction: Direction): Net {
    Net(g.nodes,
        map u | u in g.nodes :: IncidentHops(g, u, direction),
        map u | u in g.nodes :: Adjacent(g, direction, u))
  }

  /** The stored nodes one edge away from a node. */
  function Adjacent(g: Graph, direction: Direction, node: string): set<string> {
    set e | e in Incident(g, node, direction) && Other(node, e) in g.nodes :: Other(node, e)
  }

  /** What `next_edges_bounded` returns. */
  function Fetch(g: Graph, direction: Direction, node: string, budget: Budget): (seq<Hop>, bool) {
    if budget == USIZE_MAX then (Unranked(g, node, direction), false)
    else (Take(Ranked(g, node, direction), budget), |Incident(g, node, direction)| > budget)
  }

  function Fetching(g: Graph, direction: Direction): Fetcher {
    (node: string, budget: Budget) => Fetch(g, direction, node, budget)
  }

  lemma FetchElements(g: Graph, direction: Direction, node: string, budget: Budget, hops: seq<Hop>, more: bool)
    requires (hops, more) == Fetch(g, direction, node, budget)
    ensures forall h :: h in hops ==> h in IncidentHops(g, node, direction)
    ensures !more ==> forall h :: h in IncidentHops(g, node, direction) ==> h in hops
    ensures budget < USIZE_MAX ==> |hops| <= budget
  {
    hide Unranked, Ranked, IncidentHops, Incident;
    UnrankedElements(g, node, direction);
    RankedElements(g, node, direction);
    var ranked := Ranked(g, node, direction);
    if !more && budget < USIZE_MAX { assert Take(ranked, budget) == ranked; }
    assert forall h :: h in Take(ranked, budget) ==> h in ranked;
  }

  lemma RankedElements(g: Graph, node: string, direction: Direction)
    ensures forall h :: h in Ranked(g, node, direction) <==> h in IncidentHops(g, node, direction)
    ensures |Ranked(g, node, direction)| == |Incident(g, node, direction)|
  {
  }

  lemma FetchIsNext(g: Graph, direction: Direction, node: string, hops: seq<Hop>)
    requires forall h :: h in hops ==> h in IncidentHops(g, node, direction)
    ensures forall h :: h in hops && h.next in g.nodes ==> h.next in Adjacent(g, direction, node)
    ensures (forall h :: h in IncidentHops(g, node, direction) ==> h in hops) ==>
              forall v :: v in Adjacent(g, direction, node) ==> exists h :: h in hops && h.next == v && v in g.nodes
  {
    if forall h :: h in IncidentHops(g, node, direction) ==> h in hops {
      forall v | v in Adjacent(g, direction, node) ensures exists h :: h in hops && h.next == v && v in g.nodes {
        var e :| e in Incident(g, node, direction) && Other(node, e) == v;
        assert Hop(e, v) in IncidentHops(g, node, direction);
      }
    }
  }

  lemma FetchingIsSound(g: Graph, direction: Direction)
    ensures Sound(NetOf(g, direction), Fetching(g, direction))
  {
    var net, fetch := NetOf(g, direction), Fetching(g, direction);
    forall u, b: Budget | u in net.nodes
      ensures u in net.hops
      ensures forall h :: h in fetch(u, b).0 ==>
                h in net.hops[u] && (h.next in net.nodes ==> h.next in Next(net.adjacent, u))
      ensures !fetch(u, b).1 ==> forall v :: v in Next(net.adjacent, u) ==>
              exists h :: h in fetch(u, b).0 && h.next == v && v in net.nodes
      ensures b < USIZE_MAX ==> |fetch(u, b).0| <= b
      ensures b == USIZE_MAX ==> !fetch(u, b).1
    {
      var (hops, more) := Fetch(g, direction, u, b);
      FetchElements(g, direction, u, b, hops, more);
      FetchIsNext(g, direction, u, hops);
    }
  }

  lemma FetchingIsMonotone(g: Graph, direction: Direction)
    ensures Monotone(Fetching(g, direction))
  {
    var fetch := Fetching(g, direction);
    forall u, b1: Budget, b2: Budget | b1 <= b2 < USIZE_MAX
      ensures fetch(u, b1).0 <= fetch(u, b2).0 && (!fetch(u, b1).1 ==> fetch(u, b1) == fetch(u, b2))
    {
      FetchShrinks(g, direction, u, b1, b2, fetch(u, b1), fetch(u, b2));
    }
  }

  lemma FetchShrinks(g: Graph, direction: Direction, node: string, b1: Budget, b2: Budget, r1: (seq<Hop>, bool),
                     r2: (seq<Hop>, bool))
    requires b1 <= b2 < USIZE_MAX
    requires r1 == Fetch(g, direction, node, b1) && r2 == Fetch(g, direction, node, b2)
    ensures r1.0 <= r2.0 && (!r1.1 ==> r1 == r2)
  {
    TakeLess(Ranked(g, node, direction), b1, b2);
  }

  /** The whole analysis as a function of the stored graph. */
  function Impact(g: Graph, direction: Direction, start: string, maxDepth: nat, budget: Budget): (seq<Found>, bool) {
    Search(NetOf(g, direction), Fetching(g, direction), start, maxDepth, budget)
  }

  /** For every stored graph, direction, start, depth and budget, cut or not: the nodes found are at
      the distances stated, each with an edge that justifies it, and no node left out is closer. */
  lemma ImpactIsExact(g: Graph, direction: Direction, start: string, maxDepth: nat, budget: Budget)
    requires start in g.nodes
    ensures var (nodes, truncated) := Impact(g, direction, start, maxDepth, budget);
            && ExactDistances(NetOf(g, direction), start, maxDepth, nodes)
            && NearestFirst(NetOf(g, direction), start, maxDepth, nodes)
            && (!truncated ==> Keys(nodes) == Ball(NetOf(g, direction).adjacent, start, maxDepth) - {start})
            && (budget < USIZE_MAX ==> |nodes| <= budget)
            && (budget == USIZE_MAX ==> !truncated)
  {
    FetchingIsSound(g, direction);
    SearchIsExact(NetOf(g, direction), Fetching(g, direction), start, maxDepth, budget);
  }

  // ------------------------------------------------------ what a budget allows

  /** The hops at each node in the order they are followed. */
  function ListedHops(g: Graph, direction: Direction, budget: Budget): Listing {
    (node: string) => if budget == USIZE_MAX then Unranked(g, node, direction) else Ranked(g, node, direction)
  }

  lemma FetchingCuts(g: Graph, direction: Direction, budget: Budget)
    ensures Cuts(g.nodes, Fetching(g, direction), ListedHops(g, direction, budget), budget)
  {
    var fetch, all := Fetching(g, direction), ListedHops(g, direction, budget);
    forall u, b: Budget | u in g.nodes && (b == USIZE_MAX <==> budget == USIZE_MAX)
      ensures fetch(u, b) == (Cut(all(u), b), b < USIZE_MAX && |all(u)| > b)
    {
      assert fetch(u, b) == Fetch(g, direction, u, b);
    }
  }

  /** Each node with each edge that touches it: as many as the incident edges of the nodes together. */
  ghost function EdgeVisits(g: Graph, direction: Direction, nodes: set<string>): set<(string, EdgeRecord)> {
    Pairs(nodes, (u: string) => Incident(g, u, direction))
  }

  function ParentSet(order: seq<Found>, maxDepth: nat): set<string> {
    set f | f in order && f.depth < maxDepth :: f.nodeKey
  }

  lemma ParentSetLast(init: seq<Found>, last: Found, maxDepth: nat)
    ensures ParentSet(init + [last], maxDepth)
         == ParentSet(init, maxDepth) + (if last.depth < maxDepth then {last.nodeKey} else {})
  {
    assert forall f :: f in init + [last] <==> f in init || f == last;
  }

  lemma {:induction false} ParentsCount(touching: string -> set<EdgeRecord>, all: Listing, order: seq<Found>,
                                        maxDepth: nat)
    requires Distinct(order) && forall u :: |all(u)| == |touching(u)|
    ensures |HopsInTurn(all, Parents(order, maxDepth))| == |Pairs(ParentSet(order, maxDepth), touching)|
  {
    hide Pairs, ParentSet, HopsInTurn;
    if order == [] {
      NoPairs(touching);
      assert ParentSet(order, maxDepth) == {} by { NoneFound(maxDepth); }
      NothingInTurn(all);
    } else {
      var init, last := order[..|order| - 1], order[|order| - 1];
      assert order == init + [last];
      ParentsCount(touching, all, init, maxDepth);
      ParentSetLast(init, last, maxDepth);
      if last.depth < maxDepth {
        TurnsLast(all, Parents(init, maxDepth), last.nodeKey);
        LastIsNew(init, last, maxDepth);
        PairsAdd(ParentSet(init, maxDepth), last.nodeKey, touching);
      } else {
        assert Parents(init, maxDepth) + [] == Parents(init, maxDepth);
        assert ParentSet(init, maxDepth) + {} == ParentSet(init, maxDepth);
      }
    }
  }

  lemma NoneFound(maxDepth: nat)
    ensures ParentSet([], maxDepth) == {}
  {
  }

  lemma NothingInTurn(all: Listing)
    ensures HopsInTurn(all, []) == []
  {
  }

  lemma LastIsNew(init: seq<Found>, last: Found, maxDepth: nat)
    requires Distinct(init + [last])
    ensures last.nodeKey !in ParentSet(init, maxDepth)
  {
    var order := init + [last];
    forall f | f in init ensures f.nodeKey != last.nodeKey {
      var i :| 0 <= i < |init| && init[i] == f;
      assert order[i] == f && order[|init|] == last;
    }
  }

  /** The expanded nodes are near the start, and all near nodes when the search was not cut. */
  lemma ParentsAreNear(net: Net, start: string, maxDepth: nat, nodes: seq<Found>, truncated: bool)
    requires start in net.nodes && maxDepth > 0 && ExactDistances(net, start, maxDepth, nodes)
    requires !truncated ==> Keys(nodes) == Ball(net.adjacent, start, maxDepth) - {start}
    ensures var near, parents :=
              Ball(net.adjacent, start, maxDepth - 1), ParentSet([StartOf(net, start)] + nodes, maxDepth);
            parents <= near && (!truncated ==> parents == near)
  {
    hide Ball, Justified, Stored, Distinct, DepthsGrow;
    var near, order := Ball(net.adjacent, start, maxDepth - 1), [StartOf(net, start)] + nodes;
    assert order[0] in order && forall f :: f in order <==> f == order[0] || f in nodes;
    StartIsNear(net.adjacent, start, maxDepth - 1);
    BallGrows(net.adjacent, start, maxDepth - 1, maxDepth);
    forall f | f in nodes && f.depth < maxDepth ensures f.nodeKey in near {
      BallGrows(net.adjacent, start, f.depth, maxDepth - 1);
    }
    if !truncated {
      forall v | v in near && v != start ensures v in ParentSet(order, maxDepth) {
        assert v in Keys(nodes);
        var f :| f in nodes && f.nodeKey == v;
        assert f in order;
      }
    }
  }

  lemma StartIsNear(adjacent: Adjacency, start: string, n: nat)
    ensures start in Ball(adjacent, start, n)
  {
    BallGrows(adjacent, start, 0, n);
  }

  /** A bounded analysis is cut exactly when the edges at the nodes nearer than the depth are more than
      the budget, each node's edges counted on their own; and the nodes found are those the first
      edges lead to, as many as the budget allows, each by the first edge that does. */
  lemma ImpactSpends(g: Graph, direction: Direction, start: string, maxDepth: nat, budget: Budget)
    requires start in g.nodes
    ensures var (nodes, truncated) := Impact(g, direction, start, maxDepth, budget);
            && (maxDepth > 0 && budget < USIZE_MAX ==>
                  (truncated <==>
                   |EdgeVisits(g, direction, Ball(NetOf(g, direction).adjacent, start, maxDepth - 1))| > budget))
            && (maxDepth == 0 ==> !truncated)
            && FollowsFirst(g, direction, start, maxDepth, budget, nodes)
  {
    var net, all := NetOf(g, direction), ListedHops(g, direction, budget);
    var (nodes, truncated) := Impact(g, direction, start, maxDepth, budget);
    var order := [StartOf(net, start)] + nodes;
    FetchingCuts(g, direction, budget);
    SearchSpends(net, Fetching(g, direction), all, start, maxDepth, budget);
    ImpactIsExact(g, direction, start, maxDepth, budget);
    assert order[1..] == nodes;
    if maxDepth > 0 && budget < USIZE_MAX {
      StartIsNew(net, start, maxDepth, nodes);
      var touching := (u: string) => Incident(g, u, direction);
      ParentsCount(touching, all, order, maxDepth);
      ParentsAreNear(net, start, maxDepth, nodes, truncated);
      PairsGrow(ParentSet(order, maxDepth), Ball(net.adjacent, start, maxDepth - 1), touching);
    } else if maxDepth == 0 {
      NoParents(order);
    }
  }

  lemma {:induction false} NoParents(order: seq<Found>)
    ensures Parents(order, 0) == []
  {
    if order != [] { NoParents(order[..|order| - 1]); }
  }

  lemma StartIsNew(net: Net, start: string, maxDepth: nat, nodes: seq<Found>)
    requires start in net.nodes && ExactDistances(net, start, maxDepth, nodes)
    ensures Distinct([StartOf(net, start)] + nodes)
  {
    var order := [StartOf(net, start)] + nodes;
    forall f | f in nodes ensures f.nodeKey != start { StartIsNear(net.adjacent, start, f.depth - 1); }
    forall a, b | 0 <= a < b < |order| ensures order[a].nodeKey != order[b].nodeKey { assert order[b] in nodes; }
  }

  /** The edges of the start and of the nodes found, in turn, lead to just these nodes when no more are
      followed than the budget allows. */
  ghost predicate FollowsFirst(g: Graph, direction: Direction, start: string, maxDepth: nat, budget: Budget,
                               nodes: seq<Found>)
    requires start in g.nodes
  {
    var order := [StartOf(NetOf(g, direction), start)] + nodes;
    ReachedBy(g.nodes, start, nodes,
              Cut(HopsInTurn(ListedHops(g, direction, budget), Parents(order, maxDepth)), budget))
  }

  /** For finite budgets the discoveries under the smaller one are a prefix of those under the
      larger one; an analysis that was not cut agrees with the unbounded one on nodes and depths. */
  lemma ImpactBudgetLaws(g: Graph, direction: Direction, start: string, maxDepth: nat, b1: Budget, b2: Budget)
    requires b1 <= b2 < USIZE_MAX
    ensures Impact(g, direction, start, maxDepth, b1).0 <= Impact(g, direction, start, maxDepth, b2).0
    ensures !Impact(g, direction, start, maxDepth, b1).1 ==>
              && Impact(g, direction, start, maxDepth, b1) == Impact(g, direction, start, maxDepth, b2)
              && Depths(Impact(g, direction, start, maxDepth, b1).0)
                 == Depths(Impact(g, direction, start, maxDepth, USIZE_MAX).0)
  {
    FetchingIsSound(g, direction);
    FetchingIsMonotone(g, direction);
    SearchMonotone(NetOf(g, direction), Fetching(g, direction), start, maxDepth, b1, b2);
    if !Impact(g, direction, start, maxDepth, b1).1 {
      UncutIsUnbounded(NetOf(g, direction), Fetching(g, direction), start, maxDepth, b1);
    }
  }

  // -------------------------------------------------------------- the method

  /** The unexpanded part of the list, as the queue holds it. */
  ghost function Pending(order: seq<Found>, done: nat): seq<(string, nat)>
    requires done <= |order|
  {
    seq(|order| - done, i requires 0 <= i < |order| - done => (order[done + i].nodeKey, order[done + i].depth))
  }

  ghost predicate Visits(nodes: map<string, NodeRecord>, visited: set<string>, order: seq<Found>) {
    forall k :: k in nodes ==> (k in visited <==> k in Keys(order))
  }

  method ImpactAnalysisBounded(g: Graph, direction: Direction, objectKey: string, maxDepth: nat, maxResults: Budget)
    returns (nodes: seq<Found>, truncated: bool)
    ensures (nodes, truncated) == Impact(g, direction, objectKey, maxDepth, maxResults)
    ensures objectKey !in g.nodes ==> nodes == [] && !truncated
    ensures objectKey in g.nodes ==> ExactDistances(NetOf(g, direction), objectKey, maxDepth, nodes)
    ensures objectKey in g.nodes ==> NearestFirst(NetOf(g, direction), objectKey, maxDepth, nodes)
    ensures objectKey in g.nodes && !truncated ==>
              Keys(nodes) == Ball(NetOf(g, direction).adjacent, objectKey, maxDepth) - {objectKey}
    ensures maxResults < USIZE_MAX ==> |nodes| <= maxResults
    ensures objectKey in g.nodes && maxDepth > 0 && maxResults < USIZE_MAX ==>
              (truncated <==>
               |EdgeVisits(g, direction, Ball(NetOf(g, direction).adjacent, objectKey, maxDepth - 1))| > maxResults)
    ensures maxDepth == 0 || maxResults == USIZE_MAX ==> !truncated
    ensures objectKey in g.nodes ==> FollowsFirst(g, direction, objectKey, maxDepth, maxResults, nodes)
  {
    hide ExactDistances, NearestFirst, FollowsFirst, EdgeVisits, Ball;
    if objectKey in g.nodes {
      ImpactIsExact(g, direction, objectKey, maxDepth, maxResults);
      ImpactSpends(g, direction, objectKey, maxDepth, maxResults);
    }
    nodes, truncated := Traverse(g, direction, NetOf(g, direction), Fetching(g, direction), objectKey, maxDepth,
                                 maxResults);
  }

  ghost predicate Implements(g: Graph, direction: Direction, net: Net, fetch: Fetcher) {
    net.nodes == g.nodes && forall u, b: Budget {:trigger Fetch(g, direction, u, b)} ::
        fetch(u, b) == Fetch(g, direction, u, b)
  }

  /** A point in the loop: the queue is the unexpanded part of the discoveries. */
  ghost predicate InLoop(net: Net, order: seq<Found>, done: nat, queue: seq<(string, nat)>, visited: set<string>) {
    && Distinct(order) && Stored(net.nodes, order) && done <= |order|
    && queue == Pending(order, done) && Visits(net.nodes, visited, order)
  }

  /** The traversal loop. `net` and `fetch` only name what it is compared with. */
  method Traverse(g: Graph, direction: Direction, ghost net: Net, ghost fetch: Fetcher, objectKey: string,
                  maxDepth: nat, maxResults: Budget)
    returns (nodes: seq<Found>, truncated: bool)
    requires Implements(g, direction, net, fetch)
    ensures (nodes, truncated) == Search(net, fetch, objectKey, maxDepth, maxResults)
  {
    var visited := {objectKey};
    var queue := [(objectKey, 0)];
    var remainingBudget: Budget := maxResults;
    nodes, truncated := [], false;
    if objectKey !in g.nodes { return; }

    ghost var order, done := [StartOf(net, objectKey)], 0;
    ghost var start, whole := order, Explore(net, fetch, maxDepth, order, 0, maxResults);
    while queue != []
      invariant order == start + nodes && |start| == 1
      invariant InLoop(net, order, done, queue, visited)
      invariant maxResults == USIZE_MAX <==> remainingBudget == USIZE_MAX
      invariant !truncated && Explore(net, fetch, maxDepth, order, done, remainingBudget) == whole
      decreases |net.nodes| - done
    {
      DistinctBound(net.nodes, order);
      var hasMoreEdges;
      nodes, queue, visited, remainingBudget, hasMoreEdges :=
        Round(g, direction, net, fetch, maxDepth, remainingBudget, nodes, queue, visited, start, order, done);
      truncated := truncated || hasMoreEdges;
      order := start + nodes;
      done := done + 1;
      if hasMoreEdges { break; }
    }
    assert (start + nodes)[1..] == nodes;
  }

  /** One round: takes the front of the queue and, above the depth limit, follows its edges within
      the budget. */
  method Round(g: Graph, direction: Direction, ghost net: Net, ghost fetch: Fetcher, maxDepth: nat, budget: Budget,
               nodes0: seq<Found>, queue0: seq<(string, nat)>, visited0: set<string>,
               ghost start: seq<Found>, ghost order: seq<Found>, ghost done: nat)
    returns (nodes: seq<Found>, queue: seq<(string, nat)>, visited: set<string>, remaining: Budget, hasMoreEdges: bool)
    requires Implements(g, direction, net, fetch)
    requires order == start + nodes0 && InLoop(net, order, done, queue0, visited0) && queue0 != []
    ensures InLoop(net, start + nodes, done + 1, queue, visited)
    ensures budget == USIZE_MAX <==> remaining == USIZE_MAX
    ensures Explore(net, fetch, maxDepth, order, done, budget)
         == if hasMoreEdges then (start + nodes, true)
         else Explore(net, fetch, maxDepth, start + nodes, done + 1, remaining)
  {
    var (nodeKey, depth) := queue0[0];
    ghost var parent := order[done];
    assert nodeKey == parent.nodeKey && depth == parent.depth && parent in order;
    assert queue0[1..] == Pending(order, done + 1);
    if depth == maxDepth {
      ExploreSkip(net, fetch, maxDepth, order, done, budget);
      return nodes0, queue0[1..], visited0, budget, false;
    }
    var edges;
    edges, hasMoreEdges := FetchEdges(g, direction, nodeKey, budget);
    assert fetch(nodeKey, budget) == (edges, hasMoreEdges);
    ExploreRound(net, fetch, maxDepth, order, done, budget, edges, hasMoreEdges);
    remaining := if budget != USIZE_MAX then budget - |edges| else budget;
    nodes, queue, visited := FollowEdges(g.nodes, edges, depth, nodes0, queue0[1..], visited0, start, order, parent,
                                         done);
  }

  method FetchEdges(g: Graph, direction: Direction, node: string, budget: Budget) returns (edges: seq<Hop>, more: bool)
    ensures (edges, more) == Fetch(g, direction, node, budget)
    ensures budget < USIZE_MAX ==> |edges| <= budget
  {
    edges, more := NextEdgesBounded(g, node, direction, budget);
  }

  /** The inner loop: follows the fetched edges of one node. */
  method FollowEdges(stored: map<string, NodeRecord>, edges: seq<Hop>, depth: nat, nodes0: seq<Found>,
                     queue0: seq<(string, nat)>,
                     visited0: set<string>, ghost start: seq<Found>, ghost order: seq<Found>, ghost parent: Found,
                     ghost done: nat)
    returns (nodes: seq<Found>, queue: seq<(string, nat)>, visited: set<string>)
    requires order == start + nodes0 && parent.depth == depth && done + 1 <= |order|
    requires queue0 == Pending(order, done + 1) && Visits(stored, visited0, order)
    ensures start + nodes == Absorb(stored, parent, edges, order)
    ensures |order| <= |start + nodes| && queue == Pending(start + nodes, done + 1)
    ensures Visits(stored, visited, start + nodes)
  {
    nodes, queue, visited := nodes0, queue0, visited0;
    for k := 0 to |edges|
      invariant start + nodes == Absorb(stored, parent, edges[..k], order)
      invariant |order| <= |start + nodes| && queue == Pending(start + nodes, done + 1)
      invariant Visits(stored, visited, start + nodes)
    {
      AbsorbNext(stored, parent, edges, k, order);
      var nextKey := edges[k].next;
      if nextKey in visited { continue; }
      visited := visited + {nextKey};
      if nextKey in stored {
        var node := stored[nextKey];
        ghost var before := start + nodes;
        queue := queue + [(nextKey, depth + 1)];
        nodes := nodes + [Found(nextKey, node.nodeLabel, node.displayName, depth + 1, Some(edges[k].edge))];
        assert start + nodes == before + [Discovery(stored, parent, edges[k])];
      }
    }
    assert edges[..|edges|] == edges;
  }

  lemma AbsorbNext(nodes: map<string, NodeRecord>, parent: Found, hops: seq<Hop>, k: nat, order: seq<Found>)
    requires k < |hops|
    ensures Absorb(nodes, parent, hops[..k + 1], order)
            == AbsorbOne(nodes, parent, hops[k], Absorb(nodes, parent, hops[..k], order))
  {
    assert hops[..k + 1] == hops[..k] + [hops[k]];
    AbsorbSplit(nodes, parent, hops[..k], [hops[k]], order);
    var before := Absorb(nodes, parent, hops[..k], order);
    assert [hops[k]][1..] == [];
    assert Absorb(nodes, parent, [], AbsorbOne(nodes, parent, hops[k], before))
           == AbsorbOne(nodes, parent, hops[k], before);
  }

  // ------------------------------------------------------------- the grouping

  datatype Group = Group(groupLabel: string, depth: nat, nodes: seq<Found>)

  function GroupKey(f: Found): (string, nat) { (f.nodeLabel, f.depth) }

  function ByGroup(key: (string, nat)): SortKey { SortKey(0, [key.0], key.1) }

  function GroupOrder(group: Group): SortKey { ByGroup((group.groupLabel, group.depth)) }

  function ByFoundKey(f: Found): SortKey { ByText(f.nodeKey) }

  function InGroup(nodes: seq<Found>, key: (string, nat)): seq<Found> {
    if nodes == [] then []
    else (if GroupKey(nodes[0]) == key then [nodes[0]] else []) + InGroup(nodes[1..], key)
  }

  /** `result`: groups by label and depth in order, each group's nodes by key. */
  method GroupNodes(nodes: seq<Found>) returns (groups: seq<Group>)
    ensures StrictlySorted(groups, GroupOrder)
    ensures forall group :: group in groups ==>
              && group.nodes != [] && Sorted(group.nodes, ByFoundKey)
              && forall f :: f in group.nodes ==> GroupKey(f) == (group.groupLabel, group.depth)
    ensures multiset(Members(groups)) == multiset(nodes)
    ensures |Members(groups)| == |nodes|
  {
    var grouped := Collect(nodes);
    var keys := OrderBy(grouped.Keys, ByGroup);
    groups := BuildGroups(nodes, keys, grouped);
    GroupsAreRight(nodes, keys, groups);
    MembersAreGrouped(nodes, keys, groups);
    SameCount(Members(groups), nodes);
  }

  method BuildGroups(ghost nodes: seq<Found>, keys: seq<(string, nat)>, grouped: map<(string, nat), seq<Found>>)
    returns (groups: seq<Group>)
    requires forall key :: key in keys ==> key in grouped && grouped[key] == InGroup(nodes, key)
    ensures |groups| == |keys| && forall j :: 0 <= j < |keys| ==> groups[j] == GroupOf(nodes, keys[j])
  {
    groups := [];
    for i := 0 to |keys|
      invariant |groups| == i
      invariant forall j :: 0 <= j < i ==> groups[j] == GroupOf(nodes, keys[j])
    {
      var key := keys[i];
      groups := groups + [Group(key.0, key.1, StableSort(grouped[key], ByFoundKey))];
    }
  }

  lemma {:induction false} MembersAreGrouped(nodes: seq<Found>, keys: seq<(string, nat)>, groups: seq<Group>)
    requires |groups| == |keys| && forall j :: 0 <= j < |keys| ==> groups[j] == GroupOf(nodes, keys[j])
    ensures multiset(Members(groups)) == multiset(InGroups(nodes, keys))
  {
    if keys != [] {
      StableSortKeeps(InGroup(nodes, keys[0]), ByFoundKey);
      MembersAreGrouped(nodes, keys[1..], groups[1..]);
    }
  }

  lemma SameCount(a: seq<Found>, b: seq<Found>)
    requires multiset(a) == multiset(b)
    ensures |a| == |b|
  {
    assert |multiset(a)| == |multiset(b)|;
  }

  /** Fills the map of groups, one node after another. */
  method Collect(nodes: seq<Found>) returns (grouped: map<(string, nat), seq<Found>>)
    ensures forall key :: key in grouped <==> InGroup(nodes, key) != []
    ensures forall key :: key in grouped ==> grouped[key] == InGroup(nodes, key)
  {
    grouped := map[];
    for i := 0 to |nodes|
      invariant forall key :: key in grouped <==> InGroup(nodes[..i], key) != []
      invariant forall key :: key in grouped ==> grouped[key] == InGroup(nodes[..i], key)
    {
      var key := GroupKey(nodes[i]);
      forall k ensures InGroup(nodes[..i + 1], k) == InGroup(nodes[..i], k) + (if key == k then [nodes[i]] else []) {
        assert nodes[..i + 1] == nodes[..i] + [nodes[i]];
        InGroupAppend(nodes[..i], nodes[i], k);
      }
      grouped := grouped[key := (if key in grouped then grouped[key] else []) + [nodes[i]]];
    }
    assert nodes[..|nodes|] == nodes;
  }

  ghost function GroupOf(nodes: seq<Found>, key: (string, nat)): Group {
    Group(key.0, key.1, StableSort(InGroup(nodes, key), ByFoundKey))
  }

  lemma GroupsAreRight(nodes: seq<Found>, keys: seq<(string, nat)>, groups: seq<Group>)
    requires StrictlySorted(keys, ByGroup) && forall key :: key in keys <==> InGroup(nodes, key) != []
    requires |groups| == |keys| && forall j :: 0 <= j < |keys| ==> groups[j] == GroupOf(nodes, keys[j])
    ensures forall group :: group in groups ==>
              && group.nodes != [] && Sorted(group.nodes, ByFoundKey)
              && forall f :: f in group.nodes ==> GroupKey(f) == (group.groupLabel, group.depth)
    ensures multiset(InGroups(nodes, keys)) == multiset(nodes)
  {
    forall group | group in groups
      ensures group.nodes != [] && Sorted(group.nodes, ByFoundKey)
      ensures forall f :: f in group.nodes ==> GroupKey(f) == (group.groupLabel, group.depth)
    {
      var j :| 0 <= j < |groups| && groups[j] == group;
      assert keys[j] in keys;
      GroupIsSorted(nodes, keys[j], group.nodes);
    }
    StrictlySortedLength(keys, ByGroup);
    forall f | f in nodes ensures GroupKey(f) in keys { InGroupFinds(nodes, f); }
    AllGrouped(nodes, keys);
  }

  lemma {:induction false} InGroupFinds(nodes: seq<Found>, f: Found)
    requires f in nodes
    ensures InGroup(nodes, GroupKey(f)) != []
  {
    if nodes[0] != f { InGroupFinds(nodes[1..], f); }
  }

  lemma GroupIsSorted(nodes: seq<Found>, key: (string, nat), sorted: seq<Found>)
    requires sorted == StableSort(InGroup(nodes, key), ByFoundKey) && InGroup(nodes, key) != []
    ensures sorted != [] && Sorted(sorted, ByFoundKey) && forall f :: f in sorted ==> GroupKey(f) == key
  {
    StableSortKeeps(InGroup(nodes, key), ByFoundKey);
    StableSortElements(InGroup(nodes, key), ByFoundKey, sorted);
    InGroupHolds(nodes, key);
  }

  ghost function Members(groups: seq<Group>): seq<Found> {
    if groups == [] then [] else groups[0].nodes + Members(groups[1..])
  }

  ghost function InGroups(nodes: seq<Found>, keys: seq<(string, nat)>): seq<Found> {
    if keys == [] then [] else InGroup(nodes, keys[0]) + InGroups(nodes, keys[1..])
  }

  lemma {:induction false} InGroupAppend(nodes: seq<Found>, last: Found, key: (string, nat))
    ensures InGroup(nodes + [last], key) == InGroup(nodes, key) + (if GroupKey(last) == key then [last] else [])
  {
    if nodes != [] {
      InGroupAppend(nodes[1..], last, key);
      assert (nodes + [last])[1..] == nodes[1..] + [last];
    }
  }

  lemma {:induction false} InGroupHolds(nodes: seq<Found>, key: (string, nat))
    ensures forall f :: f in InGroup(nodes, key) ==> f in nodes && GroupKey(f) == key
  {
    if nodes != [] { InGroupHolds(nodes[1..], key); }
  }

  /** Every node is in exactly one group. */
  lemma {:induction false} AllGrouped(nodes: seq<Found>, keys: seq<(string, nat)>)
    requires forall i, j :: 0 <= i < j < |keys| ==> keys[i] != keys[j]
    requires forall f :: f in nodes ==> GroupKey(f) in keys
    ensures multiset(InGroups(nodes, keys)) == multiset(nodes)
  {
    if nodes == [] {
      NothingGrouped(keys);
    } else {
      AllGrouped(nodes[1..], keys);
      GroupedOnce(nodes, keys);
      assert nodes == [nodes[0]] + nodes[1..];
    }
  }

  lemma {:induction false} NothingGrouped(keys: seq<(string, nat)>)
    ensures InGroups([], keys) == []
  {
    if keys != [] { NothingGrouped(keys[1..]); }
  }

  lemma {:induction false} GroupedOnce(nodes: seq<Found>, keys: seq<(string, nat)>)
    requires nodes != [] && forall i, j :: 0 <= i < j < |keys| ==> keys[i] != keys[j]
    ensures multiset(InGroups(nodes, keys)) == multiset(InGroups(nodes[1..], keys))
              + (if GroupKey(nodes[0]) in keys then multiset{nodes[0]} else multiset{})
  {
    if keys != [] {
      GroupedOnce(nodes, keys[1..]);
      assert keys == [keys[0]] + keys[1..];
      assert keys[0] !in keys[1..];
    }
  }
}
