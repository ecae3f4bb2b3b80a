/** The bounded graph query: node and edge listings and a traversal that share one limit
    (graph_query.rs). */
module GraphQuery {
  import opened Wrappers
  import opened Ordering
  import opened GraphModel
  import opened EdgeFetch
  import opened Reachability
  import opened BreadthFirst
  import opened GraphSearch
  import opened FollowedHops
  import opened ImpactAnalysis

  const GRAPH_QUERY_MAX_LIMIT: nat := 500
  const GRAPH_QUERY_MAX_DEPTH: nat := 8

  datatype Traversal = Traversal(startNodeKey: string, direction: Direction, maxDepth: nat)

  /** `nodeFilter` stands for the tests on key text, name text and payload, when any is given. */
  datatype Query = Query(
    nodeLabel: Option<string>, nodeFilter: Option<NodeRecord -> bool>, edgeType: Option<string>,
    traversal: Option<Traversal>, limit: nat)

  datatype Answer = Answer(
    limitApplied: nat, resultCount: nat, truncated: bool,
    nodes: seq<NodeRecord>, edges: seq<EdgeRecord>, hits: seq<Found>)

  /** The part of the graph a traversal with this edge type moves in. */
  function Within(g: Graph, edgeType: Option<string>): Graph {
    match edgeType case Some(t) => OfType(g, t) case None => g
  }

  // --------------------------------------------------------------- the edges

  /** Rows of one edge type have the same priority, so both orders agree. */
  lemma OneTypeOneOrder(g: Graph, rows: set<EdgeRecord>, edgeType: string)
    requires rows <= g.edges.Values && forall e :: e in rows ==> e.edgeType == edgeType
    ensures Distinguishes(rows, ByEdgeKey) && Distinguishes(rows, ByPriority)
    ensures OrderBy(rows, ByEdgeKey) == OrderBy(rows, ByPriority)
  {
    EdgeKeysDistinguish(g, rows);
    var byKey := OrderBy(rows, ByEdgeKey);
    forall i, j | 0 <= i < j < |byKey| ensures Less(ByPriority(byKey[i]), ByPriority(byKey[j])) {
      assert byKey[i] in rows && byKey[j] in rows;
      assert Less(ByEdgeKey(byKey[i]), ByEdgeKey(byKey[j]));
    }
    StrictlySortedUnique(byKey, OrderBy(rows, ByPriority), ByPriority);
  }

  lemma ByTypeQueries(g: Graph, node: string, edgeType: string, limit: nat)
    ensures EdgesFromByTypeLimited(g, node, edgeType, limit) == EdgesFromLimited(OfType(g, edgeType), node, limit)
    ensures EdgesToByTypeLimited(g, node, edgeType, limit) == EdgesToLimited(OfType(g, edgeType), node, limit)
  {
    OneTypeOneOrder(OfType(g, edgeType), OutRows(OfType(g, edgeType), node), edgeType);
    OneTypeOneOrder(OfType(g, edgeType), InRows(OfType(g, edgeType), node), edgeType);
  }

  method FetchByType(g: Graph, node: string, direction: Direction, edgeType: string, maxEdges: nat)
    returns (edges: seq<Hop>, sourceTruncated: bool)
    ensures edges == Fetched(OfType(g, edgeType), node, direction, maxEdges + 1)
    ensures sourceTruncated == SourceTruncated(OfType(g, edgeType), node, direction, maxEdges)
  {
    var fetchLimit := maxEdges + 1;
    var outbound, inbound: seq<Hop> := [], [];
    sourceTruncated := false;
    ByTypeQueries(g, node, edgeType, fetchLimit);
    if GoesOut(direction) {
      outbound := OutHops(EdgesFromByTypeLimited(g, node, edgeType, fetchLimit));
      sourceTruncated := |outbound| > maxEdges;
    }
    if GoesIn(direction) {
      inbound := InHops(EdgesToByTypeLimited(g, node, edgeType, fetchLimit));
      sourceTruncated := sourceTruncated || |inbound| > maxEdges;
    }
    edges := outbound + inbound;
  }

  /** `next_query_edges_bounded`: the type filter comes before the budget. */
  method NextQueryEdgesBounded(g: Graph, node: string, direction: Direction, edgeType: Option<string>, maxEdges: Budget)
    returns (edges: seq<Hop>, more: bool)
    requires maxEdges < USIZE_MAX
    ensures (edges, more) == Fetch(Within(g, edgeType), direction, node, maxEdges)
  {
    match edgeType {
      case None =>
        edges, more := NextEdgesBounded(g, node, direction, maxEdges);
      case Some(t) =>
        var sourceTruncated;
        edges, sourceTruncated := FetchByType(g, node, direction, t, maxEdges);
        MergeIsPrefix(OfType(g, t), node, direction, maxEdges, Ranked(OfType(g, t), node, direction));
        var merged := MergeBoundedEdges(edges, maxEdges, sourceTruncated);
        edges, more := merged.0, merged.1;
    }
  }

  // ----------------------------------------------------------- the traversal

  /** The queue: discoveries from `from` on that are above the depth limit. */
  ghost function Shallow(order: seq<Found>, maxDepth: nat, from: nat): seq<(string, nat)>
    requires from <= |order|
    decreases |order| - from
  {
    if from == |order| then []
    else
      var rest := Shallow(order, maxDepth, from + 1);
      if order[from].depth < maxDepth then [(order[from].nodeKey, order[from].depth)] + rest else rest
  }

  lemma {:induction false} ShallowAppend(order: seq<Found>, last: Found, maxDepth: nat, from: nat)
    requires from <= |order|
    ensures Shallow(order + [last], maxDepth, from)
         == Shallow(order, maxDepth, from) + (if last.depth < maxDepth then [(last.nodeKey, last.depth)] else [])
    decreases |order| - from
  {
    if from < |order| {
      ShallowAppend(order, last, maxDepth, from + 1);
    } else {
      assert Shallow(order + [last], maxDepth, from + 1) == [];
    }
  }

  lemma {:induction false} ShallowFront(order: seq<Found>, maxDepth: nat, from: nat)
    requires from <= |order| && DepthsGrow(order)
    ensures Shallow(order, maxDepth, from) != [] ==> from < |order| && order[from].depth < maxDepth
    ensures Shallow(order, maxDepth, from) == [] ==> forall j :: from <= j < |order| ==> order[j].depth >= maxDepth
    decreases |order| - from
  {
    if from < |order| { ShallowFront(order, maxDepth, from + 1); }
  }

  /** Discoveries at the depth limit need no expansion. */
  lemma {:induction false} RestIsDeep(net: Net, start: string, maxDepth: nat, order: seq<Found>, done: nat)
    requires Searching(net, start, maxDepth, order, done, done)
    requires forall j :: done <= j < |order| ==> order[j].depth == maxDepth
    ensures Searching(net, start, maxDepth, order, |order|, |order|)
    decreases |order| - done
  {
    if done < |order| {
      LimitGrows(net.adjacent, start, maxDepth, order, done);
      RestIsDeep(net, start, maxDepth, order, done + 1);
    }
  }

  /** Where the traversal stops, its hits are what a search that ended there found. */
  lemma EndedIsExact(net: Net, start: string, maxDepth: nat, found: seq<Found>, truncated: bool, last: nat)
    requires Ended(net, start, maxDepth, found, truncated, last)
    ensures ExactDistances(net, start, maxDepth, found[1..]) && NearestFirst(net, start, maxDepth, found[1..])
    ensures !truncated ==> Keys(found[1..]) == Ball(net.adjacent, start, maxDepth) - {start}
  {
    if truncated {
      FoundAreExact(net, start, maxDepth, found, last, last + 1);
      CutIsNearest(net, start, maxDepth, found, last);
    } else {
      FoundAreExact(net, start, maxDepth, found, |found|, |found|);
      UncutIsComplete(net, start, maxDepth, found);
    }
  }

  /** What alone may cut a traversal short: the limit is reached, or some node it came to has more
      edges of the wanted type than the limit leaves room for. */
  ghost predicate RanOut(g: Graph, edgeType: Option<string>, direction: Direction, start: string, hits: seq<Found>,
                         limit: nat) {
    || |hits| >= limit
    || exists u :: (u == start || u in Keys(hits)) && |Incident(Within(g, edgeType), u, direction)| > limit - |hits|
  }

  // ------------------------------------------------------ what a limit allows

  /** The room a traversal still has when it comes to the node number `i` of those it expands. */
  ghost function RoomAt(nodes: map<string, NodeRecord>, all: Listing, start: string, parents: seq<string>, i: nat,
                        limit: nat): int
    requires i <= |parents|
  {
    limit - |FirstHops(nodes, start, HopsInTurn(all, parents[..i]))|
  }

  /** There is room for the node's edges, even should they all lead to new nodes. */
  ghost predicate HasRoom(nodes: map<string, NodeRecord>, all: Listing, start: string, parents: seq<string>, i: nat,
                          limit: nat)
    requires i < |parents|
  {
    var room := RoomAt(nodes, all, start, parents, i, limit);
    0 < room && |all(parents[i])| <= room
  }

  /** The traversal follows all edges of the first `n` nodes it expands; where there is no room for the
      edges of the next one, it follows as many as there is room for and is cut. */
  ghost predicate StopsAt(nodes: map<string, NodeRecord>, all: Listing, start: string, parents: seq<string>, n: nat,
                          limit: nat, hits: seq<Found>, truncated: bool) {
    && n <= |parents| && (truncated <==> n < |parents|)
    && (forall i :: 0 <= i < n ==> HasRoom(nodes, all, start, parents, i, limit))
    && (if n < |parents| then
          var room := RoomAt(nodes, all, start, parents, n, limit);
          && room >= 0 && !HasRoom(nodes, all, start, parents, n, limit)
          && ReachedBy(nodes, start, hits, HopsInTurn(all, parents[..n]) + Take(all(parents[n]), room))
        else ReachedBy(nodes, start, hits, HopsInTurn(all, parents)))
  }

  /** What a traversal returns under its limit, and that it is cut exactly where the room ends. */
  ghost predicate HitsInTurn(g: Graph, edgeType: Option<string>, direction: Direction, start: string, maxDepth: nat,
                             limit: nat, hits: seq<Found>, truncated: bool)
    requires start in g.nodes
  {
    var inside := Within(g, edgeType);
    StopsSomewhere(NetOf(inside, direction), ListedHops(inside, direction, 0), start, maxDepth, limit, hits, truncated)
  }

  ghost predicate StopsSomewhere(net: Net, all: Listing, start: string, maxDepth: nat, limit: nat, hits: seq<Found>,
                                 truncated: bool)
    requires start in net.nodes
  {
    var parents := Parents([StartOf(net, start)] + hits, maxDepth);
    exists n :: StopsAt(net.nodes, all, start, parents, n, limit, hits, truncated)
  }

  /** So far the traversal had room for the edges of every node it expanded. */
  ghost predicate HadRoom(nodes: map<string, NodeRecord>, all: Listing, start: string, maxDepth: nat,
                          order: seq<Found>, done: nat, limit: nat) {
    && done <= |order| && |Parents(order[..done], maxDepth)| == done
    && Reached(nodes, start, order, HopsInTurn(all, Parents(order[..done], maxDepth)))
    && forall i :: 0 <= i < done ==> HasRoom(nodes, all, start, Parents(order[..done], maxDepth), i, limit)
  }

  lemma RoomOfPrefix(nodes: map<string, NodeRecord>, all: Listing, start: string, parents: seq<string>,
                     longer: seq<string>, limit: nat)
    requires parents <= longer
    ensures forall i :: 0 <= i <= |parents| ==>
              RoomAt(nodes, all, start, longer, i, limit) == RoomAt(nodes, all, start, parents, i, limit)
    ensures forall i :: 0 <= i < |parents| ==>
              HasRoom(nodes, all, start, longer, i, limit) == HasRoom(nodes, all, start, parents, i, limit)
  {
    forall i | 0 <= i <= |parents| ensures parents[..i] == longer[..i] {}
  }

  lemma NextShallow(order: seq<Found>, done: nat, maxDepth: nat, after: seq<Found>)
    requires done < |order| && order <= after && order[done].depth < maxDepth
    ensures Parents(after[..done + 1], maxDepth) == Parents(order[..done], maxDepth) + [order[done].nodeKey]
    ensures Parents(after[..done + 1], maxDepth) <= Parents(after, maxDepth)
  {
    assert after[..done + 1] == order[..done] + [order[done]];
    ParentsLast(order[..done], order[done], maxDepth);
    ParentsPrefix(after[..done + 1], after, maxDepth);
  }

  /** The room left is what the hits so far leave of the limit. */
  lemma RoomIsLeft(nodes: map<string, NodeRecord>, all: Listing, start: string, maxDepth: nat, order: seq<Found>,
                   done: nat, limit: nat, parents: seq<string>)
    requires HadRoom(nodes, all, start, maxDepth, order, done, limit)
    requires Parents(order[..done], maxDepth) <= parents
    ensures RoomAt(nodes, all, start, parents, done, limit) == limit - (|order| - 1)
  {
    assert parents[..done] == Parents(order[..done], maxDepth);
  }

  lemma RoundHadRoom(nodes: map<string, NodeRecord>, all: Listing, start: string, maxDepth: nat, order: seq<Found>,
                     done: nat, limit: nat, after: seq<Found>)
    requires HadRoom(nodes, all, start, maxDepth, order, done, limit) && done < |order| && order[done].depth < maxDepth
    requires limit > |order| - 1 && order <= after
    requires after == Absorb(nodes, order[done], Take(all(order[done].nodeKey), limit - (|order| - 1)), order)
    ensures |all(order[done].nodeKey)| <= limit - (|order| - 1) ==>
              HadRoom(nodes, all, start, maxDepth, after, done + 1, limit)
    ensures |all(order[done].nodeKey)| > limit - (|order| - 1) ==>
              StopsAt(nodes, all, start, Parents(after, maxDepth), done, limit, after[1..], true)
  {
    hide HopsInTurn, FirstHops, Absorb, ReachedBy, RoomAt;
    var u, room, parents := order[done].nodeKey, limit - (|order| - 1), Parents(order[..done], maxDepth);
    NextShallow(order, done, maxDepth, after);
    TurnsLast(all, parents, u);
    FollowAll(nodes, start, order, HopsInTurn(all, parents), order[done], Take(all(u), room));
    RoomIsLeft(nodes, all, start, maxDepth, order, done, limit, Parents(after[..done + 1], maxDepth));
    RoomIsLeft(nodes, all, start, maxDepth, order, done, limit, Parents(after, maxDepth));
    RoomOfPrefix(nodes, all, start, parents, parents + [u], limit);
    RoomOfPrefix(nodes, all, start, parents, Parents(after, maxDepth), limit);
    assert Parents(after, maxDepth)[..done] == parents && Parents(after, maxDepth)[done] == u;
  }

  lemma NoRoomLeft(nodes: map<string, NodeRecord>, all: Listing, start: string, maxDepth: nat, order: seq<Found>,
                   done: nat, limit: nat)
    requires HadRoom(nodes, all, start, maxDepth, order, done, limit) && done < |order| && order[done].depth < maxDepth
    requires limit == |order| - 1
    ensures StopsAt(nodes, all, start, Parents(order, maxDepth), done, limit, order[1..], true)
  {
    hide HopsInTurn, FirstHops, ReachedBy, RoomAt;
    var parents := Parents(order[..done], maxDepth);
    NextShallow(order, done, maxDepth, order);
    RoomIsLeft(nodes, all, start, maxDepth, order, done, limit, Parents(order, maxDepth));
    RoomOfPrefix(nodes, all, start, parents, Parents(order, maxDepth), limit);
    assert Parents(order, maxDepth)[..done] == parents;
    assert HopsInTurn(all, parents) + [] == HopsInTurn(all, parents);
  }

  lemma {:induction false} DeepAddNothing(order: seq<Found>, done: nat, maxDepth: nat)
    requires done <= |order| && forall j :: done <= j < |order| ==> order[j].depth >= maxDepth
    ensures Parents(order, maxDepth) == Parents(order[..done], maxDepth)
    decreases |order|
  {
    if done == |order| {
      assert order[..done] == order;
    } else {
      var init := order[..|order| - 1];
      DeepAddNothing(init, done, maxDepth);
      assert init[..done] == order[..done];
    }
  }

  lemma RoomToTheEnd(nodes: map<string, NodeRecord>, all: Listing, start: string, maxDepth: nat, order: seq<Found>,
                     done: nat, limit: nat)
    requires HadRoom(nodes, all, start, maxDepth, order, done, limit)
    requires forall j :: done <= j < |order| ==> order[j].depth >= maxDepth
    ensures StopsAt(nodes, all, start, Parents(order, maxDepth), done, limit, order[1..], false)
  {
    DeepAddNothing(order, done, maxDepth);
  }

  /** The hits are at their exact distances along edges of the wanted type, none of them farther
      than a node left out; a traversal that was not cut is complete, and it is cut for want of room only. */
  method BoundedTraversal(g: Graph, edgeType: Option<string>, start: string, direction: Direction, maxDepth: nat,
                          limit: nat)
    returns (hits: seq<Found>, truncated: bool)
    requires limit <= GRAPH_QUERY_MAX_LIMIT
    ensures |hits| <= limit
    ensures maxDepth == 0 || start !in g.nodes ==> hits == [] && !truncated
    ensures start in g.nodes ==> ExactDistances(NetOf(Within(g, edgeType), direction), start, maxDepth, hits)
    ensures start in g.nodes && maxDepth > 0 ==>
            NearestFirst(NetOf(Within(g, edgeType), direction), start, maxDepth, hits)
    ensures start in g.nodes && !truncated ==>
              Keys(hits) == Ball(NetOf(Within(g, edgeType), direction).adjacent, start, maxDepth) - {start}
    ensures truncated ==> RanOut(g, edgeType, direction, start, hits, limit)
    ensures start in g.nodes ==> HitsInTurn(g, edgeType, direction, start, maxDepth, limit, hits, truncated)
  {
    hide StopsAt, RanOut;
    if start !in g.nodes { return [], false; }
    if maxDepth == 0 {
      NothingExpanded(NetOf(Within(g, edgeType), direction), ListedHops(Within(g, edgeType), direction, 0), start,
                      limit);
      return [], false;
    }
    FetchingIsSound(Within(g, edgeType), direction);
    FetchingCuts(Within(g, edgeType), direction, 0);
    hits, truncated := TraverseWithin(g, edgeType, direction, NetOf(Within(g, edgeType), direction),
                                      Fetching(Within(g, edgeType), direction),
                                      ListedHops(Within(g, edgeType), direction, 0), start, maxDepth, limit);
  }

  lemma NothingExpanded(net: Net, all: Listing, start: string, limit: nat)
    requires start in net.nodes
    ensures StopsSomewhere(net, all, start, 0, limit, [], false)
  {
    var first: seq<Found> := [StartOf(net, start)] + [];
    NoParents(first);
    assert StopsAt(net.nodes, all, start, Parents(first, 0), 0, limit, [], false);
  }

  ghost predicate ImplementsWithin(g: Graph, edgeType: Option<string>, direction: Direction, net: Net, fetch: Fetcher) {
    net.nodes == g.nodes
    && forall u, b: Budget {:trigger Fetch(Within(g, edgeType), direction, u, b)} ::
         fetch(u, b) == Fetch(Within(g, edgeType), direction, u, b)
  }

  ghost predicate InTraversal(net: Net, start: string, maxDepth: nat, order: seq<Found>, done: nat,
                              queue: seq<(string, nat)>, visited: set<string>) {
    && Searching(net, start, maxDepth, order, done, done)
    && queue == Shallow(order, maxDepth, done) && Visits(net.nodes, visited, order)
  }

  method TraverseWithin(g: Graph, edgeType: Option<string>, direction: Direction, ghost net: Net, ghost fetch: Fetcher,
                        ghost all: Listing, start: string, maxDepth: nat, limit: nat)
    returns (hits: seq<Found>, truncated: bool)
    requires start in g.nodes && maxDepth > 0 && limit <= GRAPH_QUERY_MAX_LIMIT
    requires ImplementsWithin(g, edgeType, direction, net, fetch) && Sound(net, fetch) && Cuts(net.nodes, fetch, all, 0)
    ensures |hits| <= limit
    ensures ExactDistances(net, start, maxDepth, hits) && NearestFirst(net, start, maxDepth, hits)
    ensures !truncated ==> Keys(hits) == Ball(net.adjacent, start, maxDepth) - {start}
    ensures truncated ==> RanOut(g, edgeType, direction, start, hits, limit)
    ensures StopsSomewhere(net, all, start, maxDepth, limit, hits, truncated)
  {
    hide Cuts, HadRoom, StopsAt, Searching, Sound, Parents;
    hits, truncated := [], false;
    var visited := {start};
    var queue := [(start, 0)];
    ghost var first, done := [StartOf(net, start)], 0;
    ghost var order := first;
    TraversalBegins(net, start, maxDepth, order, queue, visited);
    NothingYet(net.nodes, all, start, maxDepth, order, limit);
    while queue != []
      invariant order == first + hits && first == [StartOf(net, start)] && |hits| <= limit
      invariant InTraversal(net, start, maxDepth, order, done, queue, visited)
      invariant !truncated && HadRoom(net.nodes, all, start, maxDepth, order, done, limit)
      decreases |net.nodes| - done
    {
      QueueShows(net, start, maxDepth, order, done, queue, visited);
      if |hits| == limit {
        truncated := true;
        FrontStays(net, start, maxDepth, order, done);
        NoRoomLeft(net.nodes, all, start, maxDepth, order, done, limit);
        break;
      }
      var hasMoreEdges;
      hits, queue, visited, hasMoreEdges :=
        TraverseFront(g, edgeType, direction, net, fetch, all, start, maxDepth, limit, hits, queue, visited, first,
                      order, done);
      truncated := hasMoreEdges;
      ghost var u := order[done].nodeKey;
      assert u == start || u in Keys(hits) by { FrontIsHit(net, start, first, order, hits, done); }
      order := first + hits;
      if hasMoreEdges { break; }
      done := done + 1;
    }
    TraversalEnds(net, start, maxDepth, order, done, truncated, queue, visited);
    if !truncated {
      QueueShows(net, start, maxDepth, order, done, queue, visited);
      RoomToTheEnd(net.nodes, all, start, maxDepth, order, done, limit);
    }
    assert order[1..] == hits;
    assert StopsAt(net.nodes, all, start, Parents([StartOf(net, start)] + hits, maxDepth), done, limit, hits,
                   truncated);
  }

  lemma TraversalBegins(net: Net, start: string, maxDepth: nat, order: seq<Found>, queue: seq<(string, nat)>,
                        visited: set<string>)
    requires start in net.nodes && maxDepth > 0 && order == [StartOf(net, start)]
    requires queue == [(start, 0)] && visited == {start}
    ensures InTraversal(net, start, maxDepth, order, 0, queue, visited)
  {
    assert Shallow(order, maxDepth, 1) == [];
  }

  lemma QueueShows(net: Net, start: string, maxDepth: nat, order: seq<Found>, done: nat, queue: seq<(string, nat)>,
                   visited: set<string>)
    requires InTraversal(net, start, maxDepth, order, done, queue, visited)
    ensures |order| <= |net.nodes| && done <= |order|
    ensures queue != [] ==> done < |order| && order[done].depth < maxDepth
    ensures queue == [] ==> forall j :: done <= j < |order| ==> order[j].depth >= maxDepth
  {
    DistinctBound(net.nodes, order);
    ShallowFront(order, maxDepth, done);
  }

  lemma FrontStays(net: Net, start: string, maxDepth: nat, order: seq<Found>, done: nat)
    requires Searching(net, start, maxDepth, order, done, done) && done < |order|
    ensures Searching(net, start, maxDepth, order, done, done + 1)
  {
    LimitGrows(net.adjacent, start, maxDepth, order, done);
  }

  lemma NothingYet(nodes: map<string, NodeRecord>, all: Listing, start: string, maxDepth: nat, order: seq<Found>,
                   limit: nat)
    requires start in nodes && |order| == 1 && order[0].nodeKey == start
    ensures HadRoom(nodes, all, start, maxDepth, order, 0, limit)
  {
    assert order[..0] == [] && order[1..] == [];
  }

  lemma QueueFront(order: seq<Found>, maxDepth: nat, done: nat, queue: seq<(string, nat)>)
    requires done < |order| && order[done].depth < maxDepth && queue == Shallow(order, maxDepth, done)
    ensures queue != [] && queue[0] == (order[done].nodeKey, order[done].depth)
            && queue[1..] == Shallow(order, maxDepth, done + 1)
  {
  }

  lemma FrontIsHit(net: Net, start: string, first: seq<Found>, order: seq<Found>, hits: seq<Found>, done: nat)
    requires start in net.nodes && first == [StartOf(net, start)] && done < |order| && order <= first + hits
    ensures order[done].nodeKey == start || order[done].nodeKey in Keys(hits)
  {
    if done > 0 { assert hits[done - 1] == order[done]; }
  }

  lemma TraversalEnds(net: Net, start: string, maxDepth: nat, order: seq<Found>, done: nat, truncated: bool,
                      queue: seq<(string, nat)>, visited: set<string>)
    requires if truncated then done < |order| && Searching(net, start, maxDepth, order, done, done + 1)
             else queue == [] && InTraversal(net, start, maxDepth, order, done, queue, visited)
    ensures ExactDistances(net, start, maxDepth, order[1..]) && NearestFirst(net, start, maxDepth, order[1..])
    ensures !truncated ==> Keys(order[1..]) == Ball(net.adjacent, start, maxDepth) - {start}
  {
    if !truncated {
      ShallowFront(order, maxDepth, done);
      assert forall j :: done <= j < |order| ==> order[j] in order;
      RestIsDeep(net, start, maxDepth, order, done);
    }
    EndedIsExact(net, start, maxDepth, order, truncated, done);
  }

  method TraverseFront(g: Graph, edgeType: Option<string>, direction: Direction, ghost net: Net, ghost fetch: Fetcher,
                       ghost all: Listing, ghost start: string, maxDepth: nat, limit: nat, hits0: seq<Found>,
                       queue0: seq<(string, nat)>, visited0: set<string>, ghost first: seq<Found>,
                       ghost order: seq<Found>, ghost done: nat)
    returns (hits: seq<Found>, queue: seq<(string, nat)>, visited: set<string>, hasMoreEdges: bool)
    requires ImplementsWithin(g, edgeType, direction, net, fetch) && Sound(net, fetch)
    requires order == first + hits0 && |hits0| < limit <= GRAPH_QUERY_MAX_LIMIT
    requires InTraversal(net, start, maxDepth, order, done, queue0, visited0)
    requires queue0 != [] && done < |order| && order[done].depth < maxDepth && |first| == 1
    requires Cuts(net.nodes, fetch, all, 0) && HadRoom(net.nodes, all, start, maxDepth, order, done, limit)
    ensures |hits| <= limit && done < |first + hits| && order <= first + hits
    ensures if hasMoreEdges
            then StopsAt(net.nodes, all, start, Parents(first + hits, maxDepth), done, limit, (first + hits)[1..], true)
            else HadRoom(net.nodes, all, start, maxDepth, first + hits, done + 1, limit)
    ensures hasMoreEdges ==> |Incident(Within(g, edgeType), order[done].nodeKey, direction)| > limit - |hits|
    ensures if hasMoreEdges then Searching(net, start, maxDepth, first + hits, done, done + 1)
            else InTraversal(net, start, maxDepth, first + hits, done + 1, queue, visited)
  {
    hide Shallow, Searching, Ball, HadRoom, StopsAt, Cuts, Parents, Absorb, Visits, Sound;
    QueueFront(order, maxDepth, done, queue0);
    var (nodeKey, depth) := queue0[0];
    ghost var parent := order[done];
    FrontIsStored(net, start, maxDepth, order, done);
    var edges;
    edges, hasMoreEdges := NextQueryEdgesBounded(g, nodeKey, direction, edgeType, limit - |hits0|);
    ghost var budget: Budget := limit - |hits0|;
    assert fetch(nodeKey, budget) == (edges, hasMoreEdges);
    FetchedPart(net.nodes, fetch, all, nodeKey, budget);
    RoundKeeps(net, fetch, start, maxDepth, order, done, budget, edges, hasMoreEdges);
    hits, queue, visited := FollowHits(g.nodes, edges, depth, maxDepth, hits0, queue0[1..], visited0, first, order,
                                       parent, done);
    RoundHadRoom(net.nodes, all, start, maxDepth, order, done, limit, first + hits);
  }

  lemma FrontIsStored(net: Net, start: string, maxDepth: nat, order: seq<Found>, done: nat)
    requires Searching(net, start, maxDepth, order, done, done) && done < |order|
    ensures order[done].nodeKey in net.nodes
  {
    assert order[done] in order;
  }

  lemma FetchedPart(nodes: map<string, NodeRecord>, fetch: Fetcher, all: Listing, u: string, budget: Budget)
    requires Cuts(nodes, fetch, all, 0) && u in nodes && budget < USIZE_MAX
    ensures fetch(u, budget) == (Take(all(u), budget), |all(u)| > budget)
  {
  }

  /** The inner loop: like the impact analysis, but only nodes above the depth limit are queued. */
  method FollowHits(stored: map<string, NodeRecord>, edges: seq<Hop>, depth: nat, maxDepth: nat, hits0: seq<Found>,
                    queue0: seq<(string, nat)>, visited0: set<string>,
                    ghost first: seq<Found>, ghost order: seq<Found>, ghost parent: Found, ghost done: nat)
    returns (hits: seq<Found>, queue: seq<(string, nat)>, visited: set<string>)
    requires order == first + hits0 && parent.depth == depth && done + 1 <= |order|
    requires queue0 == Shallow(order, maxDepth, done + 1) && Visits(stored, visited0, order)
    ensures first + hits == Absorb(stored, parent, edges, order)
    ensures |order| <= |first + hits| && queue == Shallow(first + hits, maxDepth, done + 1)
    ensures Visits(stored, visited, first + hits)
  {
    hide Shallow;
    hits, queue, visited := hits0, queue0, visited0;
    for k := 0 to |edges|
      invariant first + hits == Absorb(stored, parent, edges[..k], order)
      invariant |order| <= |first + hits| && queue == Shallow(first + hits, maxDepth, done + 1)
      invariant Visits(stored, visited, first + hits)
    {
      AbsorbNext(stored, parent, edges, k, order);
      var nextKey := edges[k].next;
      if nextKey in visited { continue; }
      visited := visited + {nextKey};
      if nextKey in stored {
        var node := stored[nextKey];
        ghost var before := first + hits;
        var hit := Found(nextKey, node.nodeLabel, node.displayName, depth + 1, Some(edges[k].edge));
        hits := hits + [hit];
        ShallowAppend(before, hit, maxDepth, done + 1);
        assert first + hits == before + [hit];
        if depth + 1 < maxDepth { queue := queue + [(nextKey, depth + 1)]; }
      }
    }
    assert edges[..|edges|] == edges;
  }

  // --------------------------------------------------------------- the query

  predicate WantsNodes(query: Query) {
    query.nodeLabel.Some? || query.nodeFilter.Some? || (query.edgeType.None? && query.traversal.None?)
  }

  function MatchingNodes(g: Graph, query: Query): seq<NodeRecord> {
    var rows := set k | k in g.nodes
                        && (query.nodeLabel.Some? ==> g.nodes[k].nodeLabel == query.nodeLabel.value)
                        && (query.nodeFilter.Some? ==> query.nodeFilter.value(g.nodes[k])) :: g.nodes[k];
    NodeKeysDistinguish(g, rows);
    OrderBy(rows, ByNodeKey)
  }

  lemma NodeKeysDistinguish(g: Graph, rows: set<NodeRecord>)
    requires rows <= g.nodes.Values
    ensures Distinguishes(rows, ByNodeKey)
  {
    forall x, y | x in rows && y in rows && ByNodeKey(x) == ByNodeKey(y) ensures x == y {
      assert [x.nodeKey][0] == [y.nodeKey][0];
    }
  }

  function EdgesByType(g: Graph, edgeType: string): seq<EdgeRecord> {
    EdgeKeysDistinguish(g, OfType(g, edgeType).edges.Values);
    OrderBy(OfType(g, edgeType).edges.Values, ByEdgeKey)
  }

  function DepthApplied(requested: nat): nat {
    if requested < GRAPH_QUERY_MAX_DEPTH then requested else GRAPH_QUERY_MAX_DEPTH
  }

  /** What a traversal within the query may return: exact hits, complete when it was not cut, cut
      only for want of room. */
  ghost predicate TraversalAnswers(g: Graph, edgeType: Option<string>, traversal: Traversal, hits: seq<Found>,
                                   room: nat, truncated: bool) {
    var net := NetOf(Within(g, edgeType), traversal.direction);
    var start, depth := traversal.startNodeKey, DepthApplied(traversal.maxDepth);
    && (truncated ==> RanOut(g, edgeType, traversal.direction, start, hits, room))
    && (start in g.nodes ==> HitsInTurn(g, edgeType, traversal.direction, start, depth, room, hits, truncated))
    && if start !in g.nodes then hits == [] && !truncated
    else
      && ExactDistances(net, start, depth, hits)
      && (depth > 0 ==> NearestFirst(net, start, depth, hits))
      && (!truncated ==> Keys(hits) == Ball(net.adjacent, start, depth) - {start})
  }

  /** What an answer to a query must be: each part a prefix of the full listing within what the
      parts before it left of the limit; the answer says it is truncated exactly when one of them was cut. */
  ghost predicate Answers(g: Graph, query: Query, answer: Answer) {
    exists cut :: AnswersCut(g, query, answer, cut)
  }

  /** The answer, where the traversal within the query was cut or not. */
  ghost predicate AnswersCut(g: Graph, query: Query, answer: Answer, cut: bool) {
    var edgeRoom := answer.limitApplied - |answer.nodes|;
    && answer.limitApplied == (if query.limit < GRAPH_QUERY_MAX_LIMIT then query.limit else GRAPH_QUERY_MAX_LIMIT)
    && answer.resultCount == |answer.nodes| + |answer.edges| + |answer.hits| <= answer.limitApplied
    && answer.nodes == Take(AllNodes(g, query), answer.limitApplied)
    && answer.edges == Take(AllEdges(g, query), edgeRoom)
    && (if query.traversal.None? then answer.hits == [] && !cut
        else TraversalAnswers(g, query.edgeType, query.traversal.value, answer.hits, edgeRoom - |answer.edges|, cut))
    && (answer.truncated <==> |AllNodes(g, query)| > answer.limitApplied || |AllEdges(g, query)| > edgeRoom || cut)
  }

  function AllNodes(g: Graph, query: Query): seq<NodeRecord> {
    if WantsNodes(query) then MatchingNodes(g, query) else []
  }

  function AllEdges(g: Graph, query: Query): seq<EdgeRecord> {
    if query.traversal.None? && query.edgeType.Some? then EdgesByType(g, query.edgeType.value) else []
  }

  /** The first of the stored rows that match, in the order of their keys: all of them, or as many as
      there is room for, and then none that is left out comes before one listed. */
  ghost predicate FirstRows<R>(rows: seq<R>, stored: set<R>, matches: R -> bool, key: R -> SortKey, room: nat) {
    && StrictlySorted(rows, key) && |rows| <= room
    && (forall r :: r in rows ==> r in stored && matches(r))
    && (forall r :: r in stored && matches(r) && r !in rows ==>
          |rows| == room && forall x :: x in rows ==> Less(key(x), key(r)))
  }

  /** Nodes are asked for by label or filter, or by leaving out both an edge type and a traversal. */
  predicate MatchesNode(query: Query, node: NodeRecord) {
    && (query.nodeLabel.Some? || query.nodeFilter.Some? || (query.edgeType.None? && query.traversal.None?))
    && (query.nodeLabel.Some? ==> node.nodeLabel == query.nodeLabel.value)
    && (query.nodeFilter.Some? ==> query.nodeFilter.value(node))
  }

  /** Edges are asked for by an edge type without a traversal. */
  predicate MatchesEdge(query: Query, edge: EdgeRecord) {
    query.traversal.None? && query.edgeType == Some(edge.edgeType)
  }

  lemma TakenAreFirst<R>(all: seq<R>, stored: set<R>, matches: R -> bool, key: R -> SortKey, room: nat)
    requires StrictlySorted(all, key) && forall r :: r in all <==> r in stored && matches(r)
    ensures FirstRows(Take(all, room), stored, matches, key, room)
  {
    var rows := Take(all, room);
    forall r | r in stored && matches(r) && r !in rows
      ensures |rows| == room && forall x :: x in rows ==> Less(key(x), key(r))
    {
      var j :| 0 <= j < |all| && all[j] == r;
      forall x | x in rows ensures Less(key(x), key(r)) {
        var i :| 0 <= i < |rows| && rows[i] == x;
        assert all[i] == x;
      }
    }
  }

  lemma NodesAreFirst(g: Graph, query: Query, room: nat)
    ensures FirstRows(Take(AllNodes(g, query), room), g.nodes.Values, n => MatchesNode(query, n), ByNodeKey, room)
  {
    hide StrictlySorted;
    NodesAreMatching(g, query);
    TakenAreFirst(AllNodes(g, query), g.nodes.Values, n => MatchesNode(query, n), ByNodeKey, room);
  }

  lemma NodesAreMatching(g: Graph, query: Query)
    ensures StrictlySorted(AllNodes(g, query), ByNodeKey)
    ensures forall n :: n in AllNodes(g, query) <==> n in g.nodes.Values && MatchesNode(query, n)
  {
  }

  lemma EdgesAreFirst(g: Graph, query: Query, room: nat)
    ensures FirstRows(Take(AllEdges(g, query), room), g.edges.Values, e => MatchesEdge(query, e), ByEdgeKey, room)
  {
    hide StrictlySorted;
    EdgesAreMatching(g, query);
    TakenAreFirst(AllEdges(g, query), g.edges.Values, e => MatchesEdge(query, e), ByEdgeKey, room);
  }

  lemma EdgesAreMatching(g: Graph, query: Query)
    ensures StrictlySorted(AllEdges(g, query), ByEdgeKey)
    ensures forall e :: e in AllEdges(g, query) <==> e in g.edges.Values && MatchesEdge(query, e)
  {
    if query.traversal.None? && query.edgeType.Some? {
      forall e ensures e in OfType(g, query.edgeType.value).edges.Values
                       <==> e in g.edges.Values && e.edgeType == query.edgeType.value {
        if e in g.edges.Values && e.edgeType == query.edgeType.value {
          var k :| k in g.edges && g.edges[k] == e;
          assert k in OfType(g, query.edgeType.value).edges;
        }
      }
    }
  }

  /** The hits are all nodes other than the start within the depth asked for, which is never more than 8. */
  ghost predicate ReachesAll(g: Graph, edgeType: Option<string>, traversal: Traversal, hits: seq<Found>) {
    var start, depth := traversal.startNodeKey, if traversal.maxDepth < 8 then traversal.maxDepth else 8;
    var adjacent := NetOf(Within(g, edgeType), traversal.direction).adjacent;
    if start in g.nodes then Keys(hits) == Ball(adjacent, start, depth) - {start} else hits == []
  }

  lemma UncutReachesAll(g: Graph, edgeType: Option<string>, traversal: Traversal, hits: seq<Found>, room: nat)
    requires TraversalAnswers(g, edgeType, traversal, hits, room, false)
    ensures ReachesAll(g, edgeType, traversal, hits)
  {
    hide ExactDistances, NearestFirst, HitsInTurn, Ball;
  }

  method QueryGraph(g: Graph, query: Query) returns (answer: Answer)
    ensures Answers(g, query, answer)
    ensures answer.limitApplied == if query.limit < 500 then query.limit else 500
    ensures FirstRows(answer.nodes, g.nodes.Values, n => MatchesNode(query, n), ByNodeKey, answer.limitApplied)
    ensures |answer.nodes| <= answer.limitApplied
            && FirstRows(answer.edges, g.edges.Values, e => MatchesEdge(query, e), ByEdgeKey,
                         answer.limitApplied - |answer.nodes|)
    ensures query.traversal.Some? && !answer.truncated ==>
              ReachesAll(g, query.edgeType, query.traversal.value, answer.hits)
  {
    hide TraversalAnswers, AllNodes, AllEdges, FirstRows, MatchesNode, MatchesEdge, ReachesAll;
    var limitApplied := if query.limit < GRAPH_QUERY_MAX_LIMIT then query.limit else GRAPH_QUERY_MAX_LIMIT;
    var remaining := limitApplied;
    var nodes, nodesCut := ListNodes(g, query, remaining);
    remaining := remaining - |nodes|;
    var edges, edgesCut := ListEdges(g, query, remaining);
    remaining := remaining - |edges|;
    var hits, hitsCut := [], false;
    if query.traversal.Some? {
      hits, hitsCut := ListHits(g, query.edgeType, query.traversal.value, remaining);
    }
    answer := Answer(limitApplied, |nodes| + |edges| + |hits|, nodesCut || edgesCut || hitsCut, nodes, edges, hits);
    assert AnswersCut(g, query, answer, hitsCut);
    NodesAreFirst(g, query, limitApplied);
    EdgesAreFirst(g, query, limitApplied - |nodes|);
    if query.traversal.Some? && !hitsCut {
      UncutReachesAll(g, query.edgeType, query.traversal.value, hits, remaining);
    }
  }

  method ListNodes(g: Graph, query: Query, remaining: nat) returns (nodes: seq<NodeRecord>, truncated: bool)
    ensures nodes == Take(AllNodes(g, query), remaining) && (truncated <==> |AllNodes(g, query)| > remaining)
  {
    if !WantsNodes(query) { return [], false; }
    var matches := MatchingNodes(g, query);
    return Take(matches, remaining), |matches| > remaining;
  }

  /** Asks for one row beyond the remaining limit, to see whether there are more. */
  method ListEdges(g: Graph, query: Query, remaining: nat) returns (edges: seq<EdgeRecord>, truncated: bool)
    ensures edges == Take(AllEdges(g, query), remaining) && (truncated <==> |AllEdges(g, query)| > remaining)
  {
    if query.traversal.Some? || query.edgeType.None? { return [], false; }
    var all := EdgesByType(g, query.edgeType.value);
    var matches := Take(all, remaining + 1);
    assert Take(matches, remaining) == Take(all, remaining);
    return Take(matches, remaining), |matches| > remaining;
  }

  method ListHits(g: Graph, edgeType: Option<string>, traversal: Traversal, remaining: nat)
    returns (hits: seq<Found>, truncated: bool)
    requires remaining <= GRAPH_QUERY_MAX_LIMIT
    ensures |hits| <= remaining && TraversalAnswers(g, edgeType, traversal, hits, remaining, truncated)
  {
    hits, truncated := BoundedTraversal(g, edgeType, traversal.startNodeKey, traversal.direction,
                                        DepthApplied(traversal.maxDepth), remaining);
  }
}
