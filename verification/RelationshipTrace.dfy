/** Relationship trace: all simple paths from a node, shortest first, with an edge budget
    (relationship_trace.rs). */
module RelationshipTrace {
  import opened Wrappers
  import opened Ordering
  import opened GraphModel
  import opened EdgeFetch
  import GraphSearch
  import opened ImpactAnalysis
  import opened PathSearch
  import opened FollowedHops
  import opened TriedPaths

  // --------------------------------------------- what the edge fetch provides

  lemma UnrankedNoRepeats(g: Graph, direction: Direction, node: string)
    ensures NoRepeats(node, Unranked(g, node, direction))
  {
    var out := if GoesOut(direction) then OutHops(EdgesFrom(g, node)) else [];
    var into := if GoesIn(direction) then InHops(EdgesTo(g, node)) else [];
    OutNoRepeats(g, direction, node, out);
    InNoRepeats(g, direction, node, into);
    JoinNoRepeats(node, out, into);
  }

  /** A hop that goes both out of and into the node is a self-loop. */
  lemma JoinNoRepeats(node: string, out: seq<Hop>, into: seq<Hop>)
    requires forall i, j :: 0 <= i < j < |out| ==> out[i] != out[j]
    requires forall i, j :: 0 <= i < j < |into| ==> into[i] != into[j]
    requires forall i :: 0 <= i < |out| ==> out[i].edge.edgeFrom == node && out[i].next == out[i].edge.edgeTo
    requires forall i :: 0 <= i < |into| ==> into[i].edge.edgeTo == node && into[i].next == into[i].edge.edgeFrom
    ensures NoRepeats(node, out + into)
  {
  }

  lemma OutNoRepeats(g: Graph, direction: Direction, node: string, out: seq<Hop>)
    requires out == if GoesOut(direction) then OutHops(EdgesFrom(g, node)) else []
    ensures forall i, j :: 0 <= i < j < |out| ==> out[i] != out[j]
    ensures forall i :: 0 <= i < |out| ==> out[i].edge.edgeFrom == node && out[i].next == out[i].edge.edgeTo
  {
    EdgeKeysDistinguish(g, OutRows(g, node));
    StrictlySortedLength(EdgesFrom(g, node), ByEdgeKey);
    forall i | 0 <= i < |out| ensures out[i].edge.edgeFrom == node { assert EdgesFrom(g, node)[i] in OutRows(g, node); }
  }

  lemma InNoRepeats(g: Graph, direction: Direction, node: string, into: seq<Hop>)
    requires into == if GoesIn(direction) then InHops(EdgesTo(g, node)) else []
    ensures forall i, j :: 0 <= i < j < |into| ==> into[i] != into[j]
    ensures forall i :: 0 <= i < |into| ==> into[i].edge.edgeTo == node && into[i].next == into[i].edge.edgeFrom
  {
    EdgeKeysDistinguish(g, InRows(g, node));
    StrictlySortedLength(EdgesTo(g, node), ByEdgeKey);
    forall i | 0 <= i < |into| ensures into[i].edge.edgeTo == node { assert EdgesTo(g, node)[i] in InRows(g, node); }
  }

  lemma FetchNoRepeats(g: Graph, direction: Direction, node: string, budget: Budget)
    ensures NoRepeats(node, Fetch(g, direction, node, budget).0)
  {
    hide Unranked, IncidentHops, Incident;
    if budget == USIZE_MAX {
      UnrankedNoRepeats(g, direction, node);
    } else {
      StrictlySortedLength(Ranked(g, node, direction), HopByPriority);
    }
  }

  lemma FetchServes(g: Graph, direction: Direction, node: string, budget: Budget, result: (seq<Hop>, bool))
    requires node in g.nodes && result == Fetch(g, direction, node, budget)
    ensures Serves(NetOf(g, direction), node, budget, result)
  {
    FetchElements(g, direction, node, budget, result.0, result.1);
    FetchNoRepeats(g, direction, node, budget);
  }

  lemma FetchingServes(g: Graph, direction: Direction)
    ensures Serving(NetOf(g, direction), Fetching(g, direction))
  {
    var fetch := Fetching(g, direction);
    forall u, b: Budget | u in g.nodes ensures Serves(NetOf(g, direction), u, b, fetch(u, b)) {
      FetchServes(g, direction, u, b, fetch(u, b));
    }
  }

  // -------------------------------------------------------------- the theorem

  /** The whole trace as a function of the stored graph: paths as sequences of edges. */
  ghost function Trace(g: Graph, direction: Direction, start: string, maxDepth: nat, budget: Budget): (seq<Path>,
          bool) {
    FetchingServes(g, direction);
    TracePaths(NetOf(g, direction), Fetching(g, direction), start, maxDepth, budget)
  }

  /** For every stored graph, direction, start, depth and budget: only simple edge paths of length 1
      to the depth are listed, each once, none of them longer than a path left out; without a cut
      they are all listed. */
  lemma TraceIsExact(g: Graph, direction: Direction, start: string, maxDepth: nat, budget: Budget)
    requires start in g.nodes
    ensures var (paths, truncated) := Trace(g, direction, start, maxDepth, budget);
            var net := NetOf(g, direction);
            && ListsWanted(net, start, maxDepth, paths)
            && ShortestFirst(net, start, maxDepth, paths)
            && (!truncated ==> forall p :: p in paths <==> Wanted(net, start, maxDepth, p))
            && (budget < USIZE_MAX ==> |paths| <= budget)
            && (budget == USIZE_MAX ==> !truncated)
  {
    FetchingServes(g, direction);
    PathSearch.TraceIsExact(NetOf(g, direction), Fetching(g, direction), start, maxDepth, budget);
  }

  lemma TraceBudgetLaws(g: Graph, direction: Direction, start: string, maxDepth: nat, b1: Budget, b2: Budget)
    requires b1 <= b2 < USIZE_MAX
    ensures Trace(g, direction, start, maxDepth, b1).0 <= Trace(g, direction, start, maxDepth, b2).0
    ensures !Trace(g, direction, start, maxDepth, b1).1 ==>
              && Trace(g, direction, start, maxDepth, b1) == Trace(g, direction, start, maxDepth, b2)
              && multiset(Trace(g, direction, start, maxDepth, b1).0)
                 == multiset(Trace(g, direction, start, maxDepth, USIZE_MAX).0)
  {
    FetchingServes(g, direction);
    FetchingIsMonotone(g, direction);
    PathSearch.TraceBudgetLaws(NetOf(g, direction), Fetching(g, direction), start, maxDepth, b1, b2);
  }

  // ------------------------------------------------------ what a budget allows

  /** Each simple path shorter than the depth with each edge at its end. */
  ghost function TraceVisits(g: Graph, direction: Direction, start: string, maxDepth: nat): set<(Path, EdgeRecord)> {
    Pairs(ShorterPaths(NetOf(g, direction), start, maxDepth), (p: Path) => Incident(g, End(start, p), direction))
  }

  /** The prolongations of the paths listed, in turn, that lead on to an unvisited stored node are just
      these paths when no more are tried than the budget allows. */
  ghost predicate TriesFirst(g: Graph, direction: Direction, start: string, maxDepth: nat, budget: Budget,
                             paths: seq<Path>) {
    var tried := TriedInTurn(start, ListedHops(g, direction, budget), [[]] + paths, maxDepth);
    paths == Kept(g.nodes, start, Cut(tried, budget))
  }

  /** A bounded trace is cut exactly when the edges at the ends of the simple paths shorter than the depth
      are more than the budget, each path's edges counted on their own; and the paths listed are those
      the first prolongations give, as many as the budget allows. */
  lemma TraceSpendsEdges(g: Graph, direction: Direction, start: string, maxDepth: nat, budget: Budget)
    requires start in g.nodes && maxDepth > 0
    ensures var (paths, truncated) := Trace(g, direction, start, maxDepth, budget);
            && (budget < USIZE_MAX ==> (truncated <==> |TraceVisits(g, direction, start, maxDepth)| > budget))
            && TriesFirst(g, direction, start, maxDepth, budget, paths)
  {
    hide TriedInTurn, ShorterPaths, Pairs;
    var net, all := NetOf(g, direction), ListedHops(g, direction, budget);
    FetchingServes(g, direction);
    FetchingCuts(g, direction, budget);
    TraceSpends(net, Fetching(g, direction), all, start, maxDepth, budget);
    TraceIsExact(g, direction, start, maxDepth, budget);
    var (paths, truncated) := Trace(g, direction, start, maxDepth, budget);
    assert ([[]] + paths)[1..] == paths;
    if budget < USIZE_MAX {
      var touching := (p: Path) => Incident(g, End(start, p), direction);
      ListedAreShort(net, start, maxDepth, paths, truncated);
      TriedCount(start, touching, all, [[]] + paths, maxDepth);
      PairsGrow(ShortOf([[]] + paths, maxDepth), ShorterPaths(net, start, maxDepth), touching);
    }
  }

  // ------------------------------------------------------- the reported paths

  datatype PathHop = PathHop(
    nodeKey: string, nodeLabel: string,
    edgeTypeUsed: Option<string>, edgeFrom: Option<string>, edgeTo: Option<string>)

  type GraphPath = seq<PathHop>

  function LabelOf(nodes: map<string, NodeRecord>, key: string): string {
    if key in nodes then nodes[key].nodeLabel else []
  }

  function StartHop(nodes: map<string, NodeRecord>, start: string): PathHop {
    PathHop(start, LabelOf(nodes, start), None, None, None)
  }

  function ReportHop(nodes: map<string, NodeRecord>, hop: Hop): PathHop {
    PathHop(hop.next, LabelOf(nodes, hop.next), Some(hop.edge.edgeType), Some(hop.edge.edgeFrom), Some(hop.edge.edgeTo))
  }

  /** A path as it is reported: the start, then each hop with the stored ends of its edge. */
  function Report(nodes: map<string, NodeRecord>, start: string, path: Path): (r: GraphPath)
    ensures |r| == |path| + 1
  {
    [StartHop(nodes, start)] + seq(|path|, i requires 0 <= i < |path| => ReportHop(nodes, path[i]))
  }

  lemma ReportLonger(nodes: map<string, NodeRecord>, start: string, path: Path, hop: Hop)
    ensures Report(nodes, start, path + [hop]) == Report(nodes, start, path) + [ReportHop(nodes, hop)]
    ensures Visited(start, path + [hop]) == Visited(start, path) + {hop.next}
    ensures Report(nodes, start, path)[|path|].nodeKey == End(start, path)
  {
  }

  function ReportAll(nodes: map<string, NodeRecord>, start: string, paths: seq<Path>): (r: seq<GraphPath>)
    ensures |r| == |paths|
  {
    seq(|paths|, i requires 0 <= i < |paths| => Report(nodes, start, paths[i]))
  }

  /** The queue: listed paths from `from` on that are shorter than the depth. */
  ghost function Shallow(nodes: map<string, NodeRecord>, start: string, order: seq<Path>, maxDepth: nat,
                         from: nat): seq<(GraphPath, set<string>)>
    requires from <= |order|
    decreases |order| - from
  {
    if from == |order| then []
    else (if |order[from]| < maxDepth then [(Report(nodes, start, order[from]), Visited(start, order[from]))] else [])
         + Shallow(nodes, start, order, maxDepth, from + 1)
  }

  lemma {:induction false} ShallowAppend(nodes: map<string, NodeRecord>, start: string, order: seq<Path>, last: Path,
                                         maxDepth: nat, from: nat)
    requires from <= |order|
    ensures Shallow(nodes, start, order + [last], maxDepth, from)
         == Shallow(nodes, start, order, maxDepth, from)
            + (if |last| < maxDepth then [(Report(nodes, start, last), Visited(start, last))] else [])
    decreases |order| - from
  {
    if from < |order| {
      ShallowAppend(nodes, start, order, last, maxDepth, from + 1);
    } else {
      assert Shallow(nodes, start, order + [last], maxDepth, from + 1) == [];
    }
  }

  lemma {:induction false} ShallowFront(nodes: map<string, NodeRecord>, start: string, order: seq<Path>, maxDepth: nat,
                                        from: nat)
    requires from <= |order| && LengthsGrow(order)
    ensures Shallow(nodes, start, order, maxDepth, from) != [] ==> from < |order| && |order[from]| < maxDepth
    ensures Shallow(nodes, start, order, maxDepth, from) == [] ==> forall j :: from <= j < |order| ==>
            |order[j]| >= maxDepth
    decreases |order| - from
  {
    if from < |order| { ShallowFront(nodes, start, order, maxDepth, from + 1); }
  }

  /** A reported hop goes to a stored node along a stored edge, in the wanted direction. */
  ghost predicate GoesOn(g: Graph, direction: Direction, before: string, hop: PathHop) {
    && hop.nodeKey in g.nodes && hop.nodeLabel == g.nodes[hop.nodeKey].nodeLabel
    && exists e :: e in g.edges.Values && Leads(direction, before, Hop(e, hop.nodeKey))
         && hop.edgeTypeUsed == Some(e.edgeType) && hop.edgeFrom == Some(e.edgeFrom) && hop.edgeTo == Some(e.edgeTo)
  }

  /** A reported path begins with the start alone and visits no node twice. */
  ghost predicate WalksEdges(g: Graph, direction: Direction, start: string, path: GraphPath) {
    && path != [] && path[0] == StartHop(g.nodes, start)
    && (forall i :: 1 <= i < |path| ==> GoesOn(g, direction, path[i - 1].nodeKey, path[i]))
    && (forall i, j :: 0 <= i < j < |path| ==> path[i].nodeKey != path[j].nodeKey)
  }

  lemma {:induction false} ReportVisits(nodes: map<string, NodeRecord>, start: string, path: Path)
    ensures forall i :: 0 <= i <= |path| ==> Report(nodes, start, path)[i].nodeKey in Visited(start, path)
  {
    forall i | 1 <= i <= |path| ensures Report(nodes, start, path)[i].nodeKey in Visited(start, path) {
      assert path[i - 1] in path;
    }
  }

  lemma WalksLonger(g: Graph, direction: Direction, start: string, path: GraphPath, last: PathHop)
    requires WalksEdges(g, direction, start, path) && GoesOn(g, direction, path[|path| - 1].nodeKey, last)
    requires forall i :: 0 <= i < |path| ==> path[i].nodeKey != last.nodeKey
    ensures WalksEdges(g, direction, start, path + [last])
  {
    hide GoesOn;
  }

  lemma HopGoesOn(g: Graph, direction: Direction, before: string, hop: Hop)
    requires hop in IncidentHops(g, before, direction) && hop.next in g.nodes
    ensures GoesOn(g, direction, before, ReportHop(g.nodes, hop))
  {
    IncidentLead(g, before, direction);
  }

  lemma {:induction false} ReportWalks(g: Graph, direction: Direction, start: string, path: Path)
    requires IsSimple(NetOf(g, direction), start, path)
    ensures WalksEdges(g, direction, start, Report(g.nodes, start, path))
  {
    hide GoesOn, WalksEdges, IncidentHops, Visited;
    if path == [] {
      StartWalks(g, direction, start);
    } else {
      var before, last := path[..|path| - 1], path[|path| - 1];
      assert path == before + [last];
      ReportWalks(g, direction, start, before);
      ReportLonger(g.nodes, start, before, last);
      ReportVisits(g.nodes, start, before);
      HopGoesOn(g, direction, End(start, before), last);
      WalksLonger(g, direction, start, Report(g.nodes, start, before), ReportHop(g.nodes, last));
    }
  }

  lemma StartWalks(g: Graph, direction: Direction, start: string)
    ensures WalksEdges(g, direction, start, Report(g.nodes, start, []))
  {
  }

  lemma ReportsWalk(g: Graph, direction: Direction, start: string, maxDepth: nat, listed: seq<Path>,
                    paths: seq<GraphPath>)
    requires ListsWanted(NetOf(g, direction), start, maxDepth, listed) && paths == ReportAll(g.nodes, start, listed)
    ensures forall p :: p in paths ==> WalksEdges(g, direction, start, p) && 2 <= |p| <= maxDepth + 1
  {
    hide WalksEdges, IsSimple;
    forall i | 0 <= i < |paths| ensures WalksEdges(g, direction, start, paths[i]) && 2 <= |paths[i]| <= maxDepth + 1 {
      assert listed[i] in listed;
      ReportWalks(g, direction, start, listed[i]);
    }
  }

  // -------------------------------------------------------------- the method

  /** The paths reported are those of `Trace`, edge for edge and in the same order. */
  method TraceRelationshipsBounded(g: Graph, direction: Direction, startKey: string, maxDepth: nat, maxPaths: Budget)
    returns (paths: seq<GraphPath>, truncated: bool)
    ensures paths == ReportAll(g.nodes, startKey, Trace(g, direction, startKey, maxDepth, maxPaths).0)
    ensures startKey in g.nodes && maxDepth > 0 ==> truncated == Trace(g, direction, startKey, maxDepth, maxPaths).1
    ensures startKey !in g.nodes || maxDepth == 0 ==> paths == [] && !truncated
    ensures maxPaths < USIZE_MAX ==> |paths| <= maxPaths
    ensures maxPaths == USIZE_MAX ==> !truncated
    ensures startKey in g.nodes && maxDepth > 0 && maxPaths < USIZE_MAX ==>
              (truncated <==> |TraceVisits(g, direction, startKey, maxDepth)| > maxPaths)
    ensures startKey in g.nodes && maxDepth > 0 ==>
              exists listed :: paths == ReportAll(g.nodes, startKey, listed)
                               && TriesFirst(g, direction, startKey, maxDepth, maxPaths, listed)
    ensures forall p :: p in paths ==> WalksEdges(g, direction, startKey, p) && 2 <= |p| <= maxDepth + 1
  {
    hide TraceVisits, TriesFirst, WalksEdges, ListsWanted;
    FetchingServes(g, direction);
    if startKey !in g.nodes {
      return [], false;
    }
    TraceIsExact(g, direction, startKey, maxDepth, maxPaths);
    if maxDepth == 0 {
      NothingAtDepthZero(NetOf(g, direction), Fetching(g, direction), startKey, maxPaths);
      return [], false;
    }
    paths, truncated := TraceLoop(g, direction, NetOf(g, direction), Fetching(g, direction), startKey, maxDepth,
                                  maxPaths);
    TraceSpendsEdges(g, direction, startKey, maxDepth, maxPaths);
    ReportsWalk(g, direction, startKey, maxDepth, Trace(g, direction, startKey, maxDepth, maxPaths).0, paths);
  }

  lemma NothingAtDepthZero(net: GraphSearch.Net, fetch: GraphSearch.Fetcher, start: string, budget: Budget)
    requires start in net.nodes && Serving(net, fetch)
    ensures TracePaths(net, fetch, start, 0, budget) == ([], false)
  {
    FirstIsTraced(net, start, 0);
    SkipKeeps(net, start, 0, [[]], 0);
    var only: seq<Path> := [[]];
    assert ExplorePaths(net, fetch, start, 0, only, 1, budget) == (only, false);
    assert ExplorePaths(net, fetch, start, 0, only, 0, budget) == (only, false);
    assert only[1..] == [];
  }

  ghost predicate Implements(g: Graph, direction: Direction, net: GraphSearch.Net, fetch: GraphSearch.Fetcher) {
    net.nodes == g.nodes
    && forall u, b: Budget {:trigger Fetch(g, direction, u, b)} :: fetch(u, b) == Fetch(g, direction, u, b)
  }

  ghost predicate InTrace(net: GraphSearch.Net, start: string, maxDepth: nat, order: seq<Path>, done: nat,
                          queue: seq<(GraphPath, set<string>)>) {
    Traced(net, start, maxDepth, order, done, done) && queue == Shallow(net.nodes, start, order, maxDepth, done)
  }

  method TraceLoop(g: Graph, direction: Direction, ghost net: GraphSearch.Net, ghost fetch: GraphSearch.Fetcher,
                   start: string, maxDepth: nat, maxPaths: Budget)
    returns (paths: seq<GraphPath>, truncated: bool)
    requires start in g.nodes && maxDepth > 0 && Implements(g, direction, net, fetch) && Serving(net, fetch)
    ensures paths == ReportAll(g.nodes, start, TracePaths(net, fetch, start, maxDepth, maxPaths).0)
    ensures truncated == TracePaths(net, fetch, start, maxDepth, maxPaths).1
  {
    paths, truncated := [], false;
    var queue := [([StartHop(g.nodes, start)], {start})];
    var remainingBudget: Budget := maxPaths;
    FirstIsTraced(net, start, maxDepth);
    ghost var order: seq<Path>, done := [[]], 0;
    ghost var whole := ExplorePaths(net, fetch, start, maxDepth, order, 0, maxPaths);
    assert Report(g.nodes, start, []) == [StartHop(g.nodes, start)] && Visited(start, []) == {start};
    assert Shallow(net.nodes, start, order, maxDepth, 1) == [];
    while queue != []
      invariant InTrace(net, start, maxDepth, order, done, queue)
      invariant paths == ReportAll(g.nodes, start, order[1..])
      invariant maxPaths == USIZE_MAX <==> remainingBudget == USIZE_MAX
      invariant !truncated && ExplorePaths(net, fetch, start, maxDepth, order, done, remainingBudget) == whole
      decreases |Universe(AllHops(net), maxDepth)| - done
    {
      ListBound(net, start, maxDepth, order);
      ShallowFront(net.nodes, start, order, maxDepth, done);
      var hasMoreEdges;
      paths, queue, remainingBudget, hasMoreEdges, order :=
        TraceFront(g, direction, net, fetch, start, maxDepth, remainingBudget, paths, queue, order, done);
      truncated := hasMoreEdges;
      if hasMoreEdges { break; }
      done := done + 1;
    }
    if !truncated { QueueIsEmpty(net, fetch, start, maxDepth, order, done, remainingBudget, queue); }
  }

  lemma QueueIsEmpty(net: GraphSearch.Net, fetch: GraphSearch.Fetcher, start: string, maxDepth: nat,
                     order: seq<Path>, done: nat, budget: Budget, queue: seq<(GraphPath, set<string>)>)
    requires start in net.nodes && Serving(net, fetch) && InTrace(net, start, maxDepth, order, done, queue)
             && queue == []
    ensures ExplorePaths(net, fetch, start, maxDepth, order, done, budget) == (order, false)
  {
    ShallowFront(net.nodes, start, order, maxDepth, done);
    RestIsLong(net, fetch, start, maxDepth, order, done, budget);
  }

  lemma {:induction false} RestIsLong(net: GraphSearch.Net, fetch: GraphSearch.Fetcher, start: string, maxDepth: nat,
                                      order: seq<Path>, done: nat, budget: Budget)
    requires start in net.nodes && Serving(net, fetch) && Traced(net, start, maxDepth, order, done, done)
    requires forall j :: done <= j < |order| ==> |order[j]| >= maxDepth
    ensures ExplorePaths(net, fetch, start, maxDepth, order, done, budget) == (order, false)
    decreases |order| - done
  {
    if done < |order| {
      assert order[done] in order;
      SkipKeeps(net, start, maxDepth, order, done);
      ListBound(net, start, maxDepth, order);
      RestIsLong(net, fetch, start, maxDepth, order, done + 1, budget);
    }
  }

  /** The front of the queue is the next path, with the nodes it visits. */
  lemma FrontOfQueue(net: GraphSearch.Net, start: string, maxDepth: nat, order: seq<Path>, done: nat,
                     queue: seq<(GraphPath, set<string>)>)
    requires InTrace(net, start, maxDepth, order, done, queue)
    requires queue != [] && done < |order| && |order[done]| < maxDepth
    ensures queue[0] == (Report(net.nodes, start, order[done]), Visited(start, order[done]))
    ensures queue[1..] == Shallow(net.nodes, start, order, maxDepth, done + 1)
    ensures |queue[0].0| > 0 && queue[0].0[|queue[0].0| - 1].nodeKey == End(start, order[done])
  {
    hide Traced, Visited;
    ReportLonger(net.nodes, start, order[done], Hop(EdgeRecord("", "", "", "", "", OfEdgeType("")), ""));
  }

  /** One round of the enumeration, spelled out. */
  lemma PathsRound(net: GraphSearch.Net, fetch: GraphSearch.Fetcher, start: string, maxDepth: nat, order: seq<Path>,
                   done: nat, budget: Budget, hops: seq<Hop>, more: bool)
    requires start in net.nodes && Serving(net, fetch) && Traced(net, start, maxDepth, order, done, done)
    requires done < |order| && |order[done]| < maxDepth && fetch(End(start, order[done]), budget) == (hops, more)
    ensures var after := Prolong(net.nodes, start, order[done], hops, order);
            && (!more ==> Traced(net, start, maxDepth, after, done + 1, done + 1))
            && ExplorePaths(net, fetch, start, maxDepth, order, done, budget)
               == if more then (after, true)
                  else ExplorePaths(net, fetch, start, maxDepth, after, done + 1, GraphSearch.Spend(budget, |hops|))
  {
    hide Traced, Serving, Prolong;
    FrontBound(net, start, maxDepth, order, done);
    PathSearch.RoundKeeps(net, fetch, start, maxDepth, order, done, budget);
  }

  lemma FrontBound(net: GraphSearch.Net, start: string, maxDepth: nat, order: seq<Path>, done: nat)
    requires Traced(net, start, maxDepth, order, done, done)
    ensures |order| <= |Universe(AllHops(net), maxDepth)|
  {
    ListBound(net, start, maxDepth, order);
  }

  /** One round: takes the front of the queue and tries its edges within the budget. */
  method TraceFront(g: Graph, direction: Direction, ghost net: GraphSearch.Net, ghost fetch: GraphSearch.Fetcher,
                    start: string, maxDepth: nat, budget: Budget,
                    paths0: seq<GraphPath>, queue0: seq<(GraphPath, set<string>)>, ghost order: seq<Path>,
                    ghost done: nat)
    returns (paths: seq<GraphPath>, queue: seq<(GraphPath, set<string>)>, remaining: Budget, hasMoreEdges: bool,
             ghost after: seq<Path>)
    requires start in g.nodes && Implements(g, direction, net, fetch) && Serving(net, fetch)
    requires InTrace(net, start, maxDepth, order, done, queue0) && paths0 == ReportAll(g.nodes, start, order[1..])
    requires queue0 != [] && done < |order| && |order[done]| < maxDepth
    ensures |after| > 0 && paths == ReportAll(g.nodes, start, after[1..])
    ensures budget == USIZE_MAX <==> remaining == USIZE_MAX
    ensures !hasMoreEdges ==> InTrace(net, start, maxDepth, after, done + 1, queue)
    ensures ExplorePaths(net, fetch, start, maxDepth, order, done, budget)
         == if hasMoreEdges then (after, true)
         else ExplorePaths(net, fetch, start, maxDepth, after, done + 1, remaining)
  {
    hide ExplorePaths, Traced, Serving, Prolong, Shallow, Report, Visited, End, ReportAll;
    FrontOfQueue(net, start, maxDepth, order, done, queue0);
    var (hops, visited) := queue0[0];
    ghost var path := order[done];
    var currentKey := hops[|hops| - 1].nodeKey;
    var edges;
    edges, hasMoreEdges := FetchEdges(g, direction, currentKey, budget);
    assert fetch(currentKey, budget) == (edges, hasMoreEdges);
    PathsRound(net, fetch, start, maxDepth, order, done, budget, edges, hasMoreEdges);
    remaining := if budget != USIZE_MAX then budget - |edges| else budget;
    paths, queue, after := FollowEdgesFrom(g.nodes, start, edges, maxDepth, hops, visited, paths0, queue0[1..], order,
                                           path, done);
  }

  /** The inner loop: prolongs one path by each fetched edge to an unvisited node. */
  method FollowEdgesFrom(stored: map<string, NodeRecord>, ghost start: string, edges: seq<Hop>, maxDepth: nat,
                         hops: GraphPath, visited: set<string>, paths0: seq<GraphPath>,
                         queue0: seq<(GraphPath, set<string>)>,
                         ghost order: seq<Path>, ghost path: Path, ghost done: nat)
    returns (paths: seq<GraphPath>, queue: seq<(GraphPath, set<string>)>, ghost after: seq<Path>)
    requires hops == Report(stored, start, path) && visited == Visited(start, path)
    requires done + 1 <= |order| && paths0 == ReportAll(stored, start, order[1..])
    requires queue0 == Shallow(stored, start, order, maxDepth, done + 1)
    ensures after == Prolong(stored, start, path, edges, order) && |order| <= |after|
    ensures paths == ReportAll(stored, start, after[1..])
    ensures queue == Shallow(stored, start, after, maxDepth, done + 1)
  {
    paths, queue, after := paths0, queue0, order;
    var depth := |hops| - 1;
    for k := 0 to |edges|
      invariant after == Prolong(stored, start, path, edges[..k], order) && |order| <= |after|
      invariant paths == ReportAll(stored, start, after[1..])
      invariant queue == Shallow(stored, start, after, maxDepth, done + 1)
    {
      ProlongNext(stored, start, path, edges, k, order);
      var edge, nextKey := edges[k].edge, edges[k].next;
      if nextKey in visited { continue; }
      if nextKey in stored {
        var nextHop := PathHop(nextKey, stored[nextKey].nodeLabel, Some(edge.edgeType), Some(edge.edgeFrom),
                               Some(edge.edgeTo));
        var nextHops := hops + [nextHop];
        ghost var longer := path + [edges[k]];
        ReportLonger(stored, start, path, edges[k]);
        assert nextHops == Report(stored, start, longer);
        paths := paths + [nextHops];
        ShallowAppend(stored, start, after, longer, maxDepth, done + 1);
        assert (after + [longer])[1..] == after[1..] + [longer];
        if depth + 1 < maxDepth { queue := queue + [(nextHops, visited + {nextKey})]; }
        after := after + [longer];
      }
    }
    assert edges[..|edges|] == edges;
  }

  lemma ProlongNext(nodes: map<string, NodeRecord>, start: string, path: Path, hops: seq<Hop>, k: nat, order: seq<Path>)
    requires k < |hops|
    ensures Prolong(nodes, start, path, hops[..k + 1], order)
         == ProlongOne(nodes, start, path, hops[k], Prolong(nodes, start, path, hops[..k], order))
  {
    assert hops[..k + 1] == hops[..k] + [hops[k]];
    ProlongSplit(nodes, start, path, hops[..k], [hops[k]], order);
    var before := Prolong(nodes, start, path, hops[..k], order);
    assert [hops[k]][1..] == [];
    assert Prolong(nodes, start, path, [], ProlongOne(nodes, start, path, hops[k], before))
           == ProlongOne(nodes, start, path, hops[k], before);
  }
}
