/** The budgeted enumeration of simple paths behind the relationship trace, over whatever edges a
    fetch returns. A path is the sequence of hops taken from the start. */
module PathSearch {
  import opened Wrappers
  import opened Ordering
  import opened GraphModel
  import opened EdgeFetch
  import opened GraphSearch

  type Path = seq<Hop>

  function End(start: string, path: Path): string {
    if path == [] then start else path[|path| - 1].next
  }

  function Visited(start: string, path: Path): set<string> {
    {start} + set h | h in path :: h.next
  }

  /** A hop that may prolong a path: to a stored node the path has not visited. */
  predicate Fits(nodes: map<string, NodeRecord>, start: string, path: Path, hop: Hop) {
    hop.next in nodes && hop.next !in Visited(start, path)
  }

  /** Every hop leaves the node reached so far, for a stored node not visited before. */
  ghost predicate IsSimple(net: Net, start: string, path: Path) {
    path != [] ==>
      var before, last := path[..|path| - 1], path[|path| - 1];
      && IsSimple(net, start, before)
      && End(start, before) in net.hops && last in net.hops[End(start, before)]
      && Fits(net.nodes, start, before, last)
  }

  lemma VisitedLonger(start: string, path: Path)
    requires path != []
    ensures Visited(start, path) == Visited(start, path[..|path| - 1]) + {path[|path| - 1].next}
  {
    assert path == path[..|path| - 1] + [path[|path| - 1]];
  }

  /** A path visits one node more than it has hops: no node is visited twice. */
  lemma {:induction false} SimpleVisitsEachOnce(net: Net, start: string, path: Path)
    requires IsSimple(net, start, path)
    ensures |Visited(start, path)| == |path| + 1
  {
    if path != [] {
      var before, last := path[..|path| - 1], path[|path| - 1];
      SimpleVisitsEachOnce(net, start, before);
      VisitedLonger(start, path);
    } else {
      assert Visited(start, path) == {start};
    }
  }

  // ------------------------------------------------ a finite home for paths

  function AllHops(net: Net): set<Hop> { set u, h | u in net.hops && h in net.hops[u] :: h }

  /** All hop sequences up to a length. */
  function Universe(hops: set<Hop>, n: nat): set<Path> {
    if n == 0 then {[]}
    else Universe(hops, n - 1) + set p, h | p in Universe(hops, n - 1) && h in hops :: p + [h]
  }

  lemma {:induction false} UniverseHolds(net: Net, start: string, path: Path, n: nat)
    requires IsSimple(net, start, path) && |path| <= n
    ensures path in Universe(AllHops(net), n)
    decreases n
  {
    if path == [] {
      if n > 0 { UniverseHolds(net, start, path, n - 1); }
    } else {
      var before, last := path[..|path| - 1], path[|path| - 1];
      UniverseHolds(net, start, before, n - 1);
      assert last in AllHops(net) && path == before + [last];
    }
  }

  // -------------------------------------------------------------- the search

  ghost predicate DistinctPaths(order: seq<Path>) {
    forall a, b :: 0 <= a < b < |order| ==> order[a] != order[b]
  }

  /** The list of paths holds simple paths within the depth, each once. */
  ghost predicate SimpleList(net: Net, start: string, maxDepth: nat, order: seq<Path>) {
    && |order| > 0 && order[0] == []
    && DistinctPaths(order)
    && forall p :: p in order ==> IsSimple(net, start, p) && |p| <= maxDepth
  }

  lemma ListBound(net: Net, start: string, maxDepth: nat, order: seq<Path>)
    requires SimpleList(net, start, maxDepth, order)
    ensures |order| <= |Universe(AllHops(net), maxDepth)|
  {
    forall p | p in order ensures p in Universe(AllHops(net), maxDepth) { UniverseHolds(net, start, p, maxDepth); }
    DistinctLength(order);
    SubsetCount(Elements(order), Universe(AllHops(net), maxDepth));
  }

  /** Fetched hops do not repeat, except a self-loop, which no simple path takes. */
  ghost predicate NoRepeats(node: string, hops: seq<Hop>) {
    forall i, j :: 0 <= i < j < |hops| && hops[i] == hops[j] ==> hops[i].next == node
  }

  function ProlongOne(nodes: map<string, NodeRecord>, start: string, path: Path, hop: Hop,
                      order: seq<Path>): seq<Path> {
    if Fits(nodes, start, path, hop) then order + [path + [hop]] else order
  }

  /** The list of paths after trying every hop at the end of one path. */
  function Prolong(nodes: map<string, NodeRecord>, start: string, path: Path, hops: seq<Hop>,
                   order: seq<Path>): seq<Path> {
    if hops == [] then order else Prolong(nodes, start, path, hops[1..], ProlongOne(nodes, start, path, hops[0], order))
  }

  lemma {:induction false} ProlongSplit(nodes: map<string, NodeRecord>, start: string, path: Path, a: seq<Hop>,
                                        b: seq<Hop>, order: seq<Path>)
    ensures Prolong(nodes, start, path, a + b, order)
            == Prolong(nodes, start, path, b, Prolong(nodes, start, path, a, order))
    decreases |a|
  {
    if a == [] {
      assert a + b == b;
    } else {
      assert (a + b)[1..] == a[1..] + b;
      ProlongSplit(nodes, start, path, a[1..], b, ProlongOne(nodes, start, path, a[0], order));
    }
  }

  /** What prolonging adds: exactly the fitting prolongations, in the order of the hops. */
  lemma {:induction false} ProlongAdds(nodes: map<string, NodeRecord>, start: string, path: Path, hops: seq<Hop>,
                                       order: seq<Path>,
                                       after: seq<Path>)
    requires after == Prolong(nodes, start, path, hops, order)
    ensures order <= after && |after| <= |order| + |hops|
    ensures forall p :: p in after[|order|..] ==>
              |p| == |path| + 1 && p[..|path|] == path && p[|path|] in hops && Fits(nodes, start, path, p[|path|])
    ensures forall h :: h in hops && Fits(nodes, start, path, h) ==> path + [h] in after
    decreases |hops|
  {
    if hops != [] {
      var one := ProlongOne(nodes, start, path, hops[0], order);
      ProlongAdds(nodes, start, path, hops[1..], one, after);
      assert hops == [hops[0]] + hops[1..];
      forall p | p in after[|order|..]
        ensures |p| == |path| + 1 && p[..|path|] == path && p[|path|] in hops && Fits(nodes, start, path, p[|path|])
      {
        var j :| |order| <= j < |after| && after[j] == p;
        if j < |one| {
          assert p == one[j] == path + [hops[0]];
        } else {
          assert p in after[|one|..];
        }
      }
      if Fits(nodes, start, path, hops[0]) { assert path + [hops[0]] == one[|order|] == after[|order|]; }
    }
  }

  /** New paths differ from each other and from all paths that do not prolong this one. */
  lemma {:induction false} ProlongDistinct(nodes: map<string, NodeRecord>, start: string, path: Path, hops: seq<Hop>,
                                           order: seq<Path>,
                                           after: seq<Path>)
    requires after == Prolong(nodes, start, path, hops, order)
    requires DistinctPaths(order) && NoRepeats(End(start, path), hops)
    requires forall h :: h in hops && Fits(nodes, start, path, h) ==> path + [h] !in order
    ensures DistinctPaths(after)
    decreases |hops|
  {
    if hops != [] {
      var one := ProlongOne(nodes, start, path, hops[0], order);
      forall h | h in hops[1..] && Fits(nodes, start, path, h) ensures path + [h] !in one {
        assert h in hops;
        EndIsVisited(start, path);
        assert h != hops[0];
        assert (path + [h])[|path|] == h && (path + [hops[0]])[|path|] == hops[0];
      }
      assert DistinctPaths(one) by { assert hops[0] in hops; }
      ProlongDistinct(nodes, start, path, hops[1..], one, after);
    }
  }

  lemma EndIsVisited(start: string, path: Path)
    ensures End(start, path) in Visited(start, path)
  {
    if path != [] { assert path[|path| - 1] in path; }
  }

  ghost predicate LengthsGrow(order: seq<Path>) {
    forall a, b :: 0 <= a < b < |order| ==> |order[a]| <= |order[b]|
  }

  /** The path a listed path prolongs is listed before it and before `limit`. */
  ghost predicate HasPrefix(order: seq<Path>, j: nat, limit: nat)
    requires j < |order|
  {
    exists p :: 0 <= p < j && p < limit && |order[j]| == |order[p]| + 1 && order[j][..|order[p]|] == order[p]
  }

  ghost predicate Prolonged(net: Net, start: string, order: seq<Path>, path: Path) {
    End(start, path) in net.hops
    && forall h :: h in net.hops[End(start, path)] && Fits(net.nodes, start, path, h) ==> path + [h] in order
  }

  /** The first `done` paths are prolonged; only those before `limit` have prolongations listed. */
  ghost predicate Traced(net: Net, start: string, maxDepth: nat, order: seq<Path>, done: nat, limit: nat) {
    && SimpleList(net, start, maxDepth, order) && LengthsGrow(order)
    && done <= limit <= done + 1 && done <= |order|
    && (forall j :: 0 < j < |order| ==> HasPrefix(order, j, limit))
    && (forall p :: 0 <= p < done && |order[p]| < maxDepth ==> Prolonged(net, start, order, order[p]))
  }

  /** Once every shorter path is prolonged, every simple path up to the length is listed. */
  lemma {:induction false} SimpleIsListed(net: Net, start: string, maxDepth: nat, order: seq<Path>, done: nat,
                                          limit: nat, path: Path)
    requires Traced(net, start, maxDepth, order, done, limit)
    requires IsSimple(net, start, path) && |path| <= maxDepth
    requires forall p :: 0 <= p < |order| && |order[p]| < |path| ==> p < done
    ensures path in order
    decreases |path|
  {
    if path == [] {
      assert order[0] == path;
    } else {
      var before, last := path[..|path| - 1], path[|path| - 1];
      SimpleIsListed(net, start, maxDepth, order, done, limit, before);
      ListedByPrefix(net, start, maxDepth, order, done, limit, before, last);
      assert path == before + [last];
    }
  }

  lemma ListedByPrefix(net: Net, start: string, maxDepth: nat, order: seq<Path>, done: nat, limit: nat, before: Path,
                       last: Hop)
    requires Traced(net, start, maxDepth, order, done, limit)
    requires before in order && |before| < maxDepth
    requires End(start, before) in net.hops && last in net.hops[End(start, before)]
             && Fits(net.nodes, start, before, last)
    requires forall p :: 0 <= p < |order| && |order[p]| <= |before| ==> p < done
    ensures before + [last] in order
  {
    var p :| 0 <= p < |order| && order[p] == before;
    assert Prolonged(net, start, order, order[p]);
  }

  /** When the search stops at path `done`, no simple path it missed is shorter than one it has. */
  lemma MissedIsLonger(net: Net, start: string, maxDepth: nat, order: seq<Path>, done: nat, limit: nat, path: Path)
    requires Traced(net, start, maxDepth, order, done, limit) && done < |order|
    requires IsSimple(net, start, path) && |path| <= maxDepth && path !in order
    ensures forall p :: p in order ==> |p| <= |path|
  {
    if |path| <= |order[done]| {
      SimpleIsListed(net, start, maxDepth, order, done, limit, path);
    }
    forall p | p in order ensures |p| <= |path| {
      var j :| 0 <= j < |order| && order[j] == p;
      if j > 0 {
        assert HasPrefix(order, j, limit);
        var q :| 0 <= q < j && q < limit && |order[j]| == |order[q]| + 1 && order[j][..|order[q]|] == order[q];
        assert |order[q]| <= |order[done]|;
      }
    }
  }

  /** Prolongations of the next path are not listed yet. */
  lemma NotYetListed(net: Net, start: string, maxDepth: nat, order: seq<Path>, i: nat, hop: Hop)
    requires Traced(net, start, maxDepth, order, i, i) && i < |order|
    ensures order[i] + [hop] !in order
  {
    var path := order[i] + [hop];
    assert path[..|order[i]|] == order[i];
    forall j | 0 <= j < |order| ensures order[j] != path {
      if j > 0 {
        assert HasPrefix(order, j, i);
        var p :| 0 <= p < j && p < i && |order[j]| == |order[p]| + 1 && order[j][..|order[p]|] == order[p];
        assert order[p] != order[i];
      }
    }
  }

  lemma SimpleLonger(net: Net, start: string, path: Path, longer: Path)
    requires IsSimple(net, start, path) && |longer| == |path| + 1 && longer[..|path|] == path
    requires End(start, path) in net.hops && longer[|path|] in net.hops[End(start, path)]
    requires Fits(net.nodes, start, path, longer[|path|])
    ensures IsSimple(net, start, longer)
  {
    assert longer[..|longer| - 1] == path;
  }

  lemma HasPrefixLater(order: seq<Path>, after: seq<Path>, limit: nat, more: nat)
    requires order <= after && limit <= more && forall j :: 0 < j < |order| ==> HasPrefix(order, j, limit)
    ensures forall j :: 0 < j < |order| ==> HasPrefix(after, j, more)
  {
    forall j | 0 < j < |order| ensures HasPrefix(after, j, more) {
      assert HasPrefix(order, j, limit);
      var p :| 0 <= p < j && p < limit && |order[j]| == |order[p]| + 1 && order[j][..|order[p]|] == order[p];
      assert after[p] == order[p] && after[j] == order[j];
    }
  }

  /** Prolonging the next path keeps the list traced, one path further. */
  lemma ProlongKeeps(net: Net, start: string, maxDepth: nat, order: seq<Path>, i: nat, hops: seq<Hop>, after: seq<Path>)
    requires Traced(net, start, maxDepth, order, i, i) && i < |order| && |order[i]| < maxDepth
    requires End(start, order[i]) in net.hops && forall h :: h in hops ==> h in net.hops[End(start, order[i])]
    requires NoRepeats(End(start, order[i]), hops)
    requires after == Prolong(net.nodes, start, order[i], hops, order)
    ensures order <= after && |after| <= |order| + |hops|
    ensures Traced(net, start, maxDepth, after, i, i + 1)
    ensures (forall h :: h in net.hops[End(start, order[i])] && Fits(net.nodes, start, order[i], h) ==> h in hops) ==>
              Traced(net, start, maxDepth, after, i + 1, i + 1)
  {
    hide Prolong, End;
    var path := order[i];
    forall h ensures path + [h] !in order { NotYetListed(net, start, maxDepth, order, i, h); }
    ProlongAdds(net.nodes, start, path, hops, order, after);
    ProlongDistinct(net.nodes, start, path, hops, order, after);
    NewPathsFit(net, start, maxDepth, order, i, hops, after);
    ProlongedLater(net, start, order, after);
    if forall h :: h in net.hops[End(start, path)] && Fits(net.nodes, start, path, h) ==> h in hops {
      assert Prolonged(net, start, after, after[i]);
    }
  }

  lemma ProlongedLater(net: Net, start: string, order: seq<Path>, after: seq<Path>)
    requires order <= after
    ensures forall p :: Prolonged(net, start, order, p) ==> Prolonged(net, start, after, p)
  {
    forall p | Prolonged(net, start, order, p) ensures Prolonged(net, start, after, p) {
      forall h | h in net.hops[End(start, p)] && Fits(net.nodes, start, p, h) ensures p + [h] in after {
        assert p + [h] in order;
      }
    }
  }

  lemma NewPathsFit(net: Net, start: string, maxDepth: nat, order: seq<Path>, i: nat, hops: seq<Hop>, after: seq<Path>)
    requires Traced(net, start, maxDepth, order, i, i) && i < |order| && |order[i]| < maxDepth
    requires End(start, order[i]) in net.hops && forall h :: h in hops ==> h in net.hops[End(start, order[i])]
    requires order <= after && DistinctPaths(after)
    requires forall p :: p in after[|order|..] ==>
               |p| == |order[i]| + 1 && p[..|order[i]|] == order[i] && p[|order[i]|] in hops
                   && Fits(net.nodes, start, order[i], p[|order[i]|])
    ensures SimpleList(net, start, maxDepth, after) && LengthsGrow(after)
    ensures var limit := i + 1; forall j :: 0 < j < |after| ==> HasPrefix(after, j, limit)
  {
    var path, limit := order[i], i + 1;
    HasPrefixLater(order, after, i, limit);
    forall j | |order| <= j < |after|
      ensures IsSimple(net, start, after[j]) && |after[j]| == |path| + 1 && HasPrefix(after, j, limit)
    {
      assert after[j] in after[|order|..];
      assert order[i] in order && after[i] == order[i];
      SimpleLonger(net, start, path, after[j]);
    }
    forall p | p in after ensures IsSimple(net, start, p) && |p| <= maxDepth {
      var j :| 0 <= j < |after| && after[j] == p;
      if j < |order| { assert order[j] in order; }
    }
    forall a | 0 <= a < |order| ensures |order[a]| <= |path| + 1 {
      if a > 0 {
        assert HasPrefix(order, a, i);
        var q :| 0 <= q < a && q < i && |order[a]| == |order[q]| + 1 && order[a][..|order[q]|] == order[q];
        assert |order[q]| <= |order[i]|;
      }
    }
  }

  // --------------------------------------------------------- the whole search

  /** What a fetch returns at a node: hops of that node, all of them unless there are more. */
  ghost predicate Serves(net: Net, node: string, budget: Budget, result: (seq<Hop>, bool)) {
    && node in net.hops && NoRepeats(node, result.0)
    && (forall h :: h in result.0 ==> h in net.hops[node])
    && (!result.1 ==> forall h :: h in net.hops[node] ==> h in result.0)
    && (budget < USIZE_MAX ==> |result.0| <= budget)
    && (budget == USIZE_MAX ==> !result.1)
  }

  ghost predicate Serving(net: Net, fetch: Fetcher) {
    forall u, b: Budget {:trigger Serves(net, u, b, fetch(u, b))} :: u in net.nodes ==> Serves(net, u, b, fetch(u, b))
  }

  lemma EndIsStored(net: Net, start: string, path: Path)
    requires IsSimple(net, start, path) && start in net.nodes
    ensures End(start, path) in net.nodes
  {
  }

  /** The enumeration from a given point on: the paths listed, and whether the budget cut them. */
  ghost function ExplorePaths(net: Net, fetch: Fetcher, start: string, maxDepth: nat, order: seq<Path>, done: nat,
                              budget: Budget): (seq<Path>, bool)
    requires start in net.nodes && Serving(net, fetch) && Traced(net, start, maxDepth, order, done, done)
    decreases |Universe(AllHops(net), maxDepth)| - done
  {
    ListBound(net, start, maxDepth, order);
    if done == |order| then (order, false)
    else if |order[done]| == maxDepth then
      SkipKeeps(net, start, maxDepth, order, done);
      ExplorePaths(net, fetch, start, maxDepth, order, done + 1, budget)
    else
      RoundKeeps(net, fetch, start, maxDepth, order, done, budget);
      var (hops, more) := fetch(End(start, order[done]), budget);
      var after := Prolong(net.nodes, start, order[done], hops, order);
      if more then (after, true)
      else ExplorePaths(net, fetch, start, maxDepth, after, done + 1, Spend(budget, |hops|))
  }

  lemma SkipKeeps(net: Net, start: string, maxDepth: nat, order: seq<Path>, done: nat)
    requires Traced(net, start, maxDepth, order, done, done) && done < |order| && |order[done]| == maxDepth
    ensures Traced(net, start, maxDepth, order, done + 1, done + 1)
  {
    HasPrefixLater(order, order, done, done + 1);
  }

  lemma RoundKeeps(net: Net, fetch: Fetcher, start: string, maxDepth: nat, order: seq<Path>, done: nat, budget: Budget)
    requires start in net.nodes && Serving(net, fetch)
    requires Traced(net, start, maxDepth, order, done, done) && done < |order| && |order[done]| != maxDepth
    ensures var result := fetch(End(start, order[done]), budget);
            var after := Prolong(net.nodes, start, order[done], result.0, order);
            && order <= after && |after| <= |order| + |result.0|
            && Serves(net, End(start, order[done]), budget, result)
            && Traced(net, start, maxDepth, after, done, done + 1)
            && (!result.1 ==> Traced(net, start, maxDepth, after, done + 1, done + 1))
  {
    assert order[done] in order;
    EndIsStored(net, start, order[done]);
    var result := fetch(End(start, order[done]), budget);
    assert Serves(net, End(start, order[done]), budget, result);
    ProlongKeeps(net, start, maxDepth, order, done, result.0, Prolong(net.nodes, start, order[done], result.0, order));
  }

  /** Where the enumeration ends: at a cut, or with every path prolonged. */
  ghost predicate EndedPaths(net: Net, start: string, maxDepth: nat, listed: seq<Path>, truncated: bool, last: nat) {
    if truncated then last < |listed| && Traced(net, start, maxDepth, listed, last, last + 1)
    else Traced(net, start, maxDepth, listed, |listed|, |listed|)
  }

  lemma {:induction false} ExploreEnds(net: Net, fetch: Fetcher, start: string, maxDepth: nat, order: seq<Path>,
                                       done: nat, budget: Budget,
                                       listed: seq<Path>, truncated: bool)
    returns (last: nat)
    requires start in net.nodes && Serving(net, fetch) && Traced(net, start, maxDepth, order, done, done)
    requires (listed, truncated) == ExplorePaths(net, fetch, start, maxDepth, order, done, budget)
    ensures order <= listed && EndedPaths(net, start, maxDepth, listed, truncated, last)
    ensures budget < USIZE_MAX ==> |listed| <= |order| + budget
    ensures budget == USIZE_MAX ==> !truncated
    decreases |Universe(AllHops(net), maxDepth)| - done
  {
    ListBound(net, start, maxDepth, order);
    last := done;
    if done == |order| {
    } else if |order[done]| == maxDepth {
      SkipKeeps(net, start, maxDepth, order, done);
      last := ExploreEnds(net, fetch, start, maxDepth, order, done + 1, budget, listed, truncated);
    } else {
      RoundKeeps(net, fetch, start, maxDepth, order, done, budget);
      var (hops, more) := fetch(End(start, order[done]), budget);
      if !more {
        var after := Prolong(net.nodes, start, order[done], hops, order);
        last := ExploreEnds(net, fetch, start, maxDepth, after, done + 1, Spend(budget, |hops|), listed, truncated);
      }
    }
  }

  // -------------------------------------------------------------- properties

  ghost predicate Wanted(net: Net, start: string, maxDepth: nat, path: Path) {
    IsSimple(net, start, path) && 1 <= |path| <= maxDepth
  }

  /** Only wanted paths are listed, each once, shorter ones first. */
  ghost predicate ListsWanted(net: Net, start: string, maxDepth: nat, paths: seq<Path>) {
    DistinctPaths(paths) && LengthsGrow(paths) && forall p :: p in paths ==> Wanted(net, start, maxDepth, p)
  }

  /** No wanted path left out is strictly shorter than a listed one. */
  ghost predicate ShortestFirst(net: Net, start: string, maxDepth: nat, paths: seq<Path>) {
    forall q :: Wanted(net, start, maxDepth, q) && q !in paths ==> forall p :: p in paths ==> |p| <= |q|
  }

  /** From the final list to the result: the start's own empty path is not reported. */
  lemma EndedIsExact(net: Net, start: string, maxDepth: nat, listed: seq<Path>, truncated: bool, last: nat)
    requires EndedPaths(net, start, maxDepth, listed, truncated, last)
    ensures ListsWanted(net, start, maxDepth, listed[1..]) && ShortestFirst(net, start, maxDepth, listed[1..])
    ensures !truncated ==> forall p :: Wanted(net, start, maxDepth, p) ==> p in listed[1..]
  {
    var done, limit := if truncated then last else |listed|, if truncated then last + 1 else |listed|;
    assert listed == [listed[0]] + listed[1..];
    forall p | p in listed[1..] ensures Wanted(net, start, maxDepth, p) {
      var j :| 1 <= j < |listed| && listed[j] == p;
      assert listed[0] != listed[j];
    }
    forall q | Wanted(net, start, maxDepth, q) && q !in listed[1..]
      ensures truncated && forall p :: p in listed[1..] ==> |p| <= |q| {
      assert q !in listed;
      if truncated {
        MissedIsLonger(net, start, maxDepth, listed, done, limit, q);
      } else {
        SimpleIsListed(net, start, maxDepth, listed, done, limit, q);
      }
    }
  }

  ghost function TracePaths(net: Net, fetch: Fetcher, start: string, maxDepth: nat, budget: Budget): (seq<Path>, bool)
    requires Serving(net, fetch)
  {
    if start !in net.nodes then ([], false)
    else
      FirstIsTraced(net, start, maxDepth);
      var (listed, truncated) := ExplorePaths(net, fetch, start, maxDepth, [[]], 0, budget);
      (if listed == [] then [] else listed[1..], truncated)
  }

  lemma FirstIsTraced(net: Net, start: string, maxDepth: nat)
    ensures Traced(net, start, maxDepth, [[]], 0, 0)
  {
  }

  /** The main theorem, for every graph, start, depth and budget, cut or not. */
  lemma TraceIsExact(net: Net, fetch: Fetcher, start: string, maxDepth: nat, budget: Budget)
    requires Serving(net, fetch) && start in net.nodes
    ensures var (paths, truncated) := TracePaths(net, fetch, start, maxDepth, budget);
            && ListsWanted(net, start, maxDepth, paths)
            && ShortestFirst(net, start, maxDepth, paths)
            && (!truncated ==> forall p :: p in paths <==> Wanted(net, start, maxDepth, p))
            && (budget < USIZE_MAX ==> |paths| <= budget)
            && (budget == USIZE_MAX ==> !truncated)
  {
    FirstIsTraced(net, start, maxDepth);
    var (listed, truncated) := ExplorePaths(net, fetch, start, maxDepth, [[]], 0, budget);
    var last := ExploreEnds(net, fetch, start, maxDepth, [[]], 0, budget, listed, truncated);
    EndedIsExact(net, start, maxDepth, listed, truncated, last);
  }

  // ------------------------------------------------------------- budget laws

  /** With a smaller budget the enumeration lists the same paths and stops earlier. */
  lemma {:induction false} ExploreMonotone(net: Net, fetch: Fetcher, start: string, maxDepth: nat, order: seq<Path>,
                                           done: nat,
                                           b1: Budget, b2: Budget, r1: (seq<Path>, bool), r2: (seq<Path>, bool))
    requires Monotone(fetch) && b1 <= b2 < USIZE_MAX
    requires start in net.nodes && Serving(net, fetch) && Traced(net, start, maxDepth, order, done, done)
    requires r1 == ExplorePaths(net, fetch, start, maxDepth, order, done, b1)
    requires r2 == ExplorePaths(net, fetch, start, maxDepth, order, done, b2)
    ensures order <= r1.0 <= r2.0 && (!r1.1 ==> r1 == r2)
    decreases |Universe(AllHops(net), maxDepth)| - done
  {
    ListBound(net, start, maxDepth, order);
    if done == |order| {
    } else if |order[done]| == maxDepth {
      SkipKeeps(net, start, maxDepth, order, done);
      ExploreMonotone(net, fetch, start, maxDepth, order, done + 1, b1, b2, r1, r2);
    } else {
      RoundKeeps(net, fetch, start, maxDepth, order, done, b1);
      RoundKeeps(net, fetch, start, maxDepth, order, done, b2);
      var node := End(start, order[done]);
      var (hops1, more1) := fetch(node, b1);
      var (hops2, more2) := fetch(node, b2);
      ProlongPrefix(net.nodes, start, order[done], hops1, hops2, order);
      if !more1 {
        var after := Prolong(net.nodes, start, order[done], hops1, order);
        ExploreMonotone(net, fetch, start, maxDepth, after, done + 1, Spend(b1, |hops1|), Spend(b2, |hops1|), r1, r2);
      } else if !more2 {
        var after, rest := Prolong(net.nodes, start, order[done], hops2, order), Spend(b2, |hops2|);
        ExploreMonotone(net, fetch, start, maxDepth, after, done + 1, rest, rest, r2, r2);
      }
    }
  }

  lemma ProlongPrefix(nodes: map<string, NodeRecord>, start: string, path: Path, a: seq<Hop>, b: seq<Hop>,
                      order: seq<Path>)
    requires a <= b
    ensures order <= Prolong(nodes, start, path, a, order) <= Prolong(nodes, start, path, b, order)
  {
    assert b == a + b[|a|..];
    ProlongSplit(nodes, start, path, a, b[|a|..], order);
    var after := Prolong(nodes, start, path, a, order);
    ProlongAdds(nodes, start, path, a, order, after);
    ProlongAdds(nodes, start, path, b[|a|..], after, Prolong(nodes, start, path, b, order));
  }

  /** The budget laws of path tracing. */
  lemma TraceBudgetLaws(net: Net, fetch: Fetcher, start: string, maxDepth: nat, b1: Budget, b2: Budget)
    requires Serving(net, fetch) && Monotone(fetch) && b1 <= b2 < USIZE_MAX
    ensures TracePaths(net, fetch, start, maxDepth, b1).0 <= TracePaths(net, fetch, start, maxDepth, b2).0
    ensures !TracePaths(net, fetch, start, maxDepth, b1).1 ==>
              && TracePaths(net, fetch, start, maxDepth, b1) == TracePaths(net, fetch, start, maxDepth, b2)
              && multiset(TracePaths(net, fetch, start, maxDepth, b1).0)
                 == multiset(TracePaths(net, fetch, start, maxDepth, USIZE_MAX).0)
  {
    if start in net.nodes {
      FirstIsTraced(net, start, maxDepth);
      ExploreMonotone(net, fetch, start, maxDepth, [[]], 0, b1, b2,
                      ExplorePaths(net, fetch, start, maxDepth, [[]], 0, b1),
                      ExplorePaths(net, fetch, start, maxDepth, [[]], 0, b2));
      if !TracePaths(net, fetch, start, maxDepth, b1).1 {
        TraceIsExact(net, fetch, start, maxDepth, b1);
        TraceIsExact(net, fetch, start, maxDepth, USIZE_MAX);
        SamePaths(TracePaths(net, fetch, start, maxDepth, b1).0, TracePaths(net, fetch, start, maxDepth, USIZE_MAX).0);
      }
    }
  }

  lemma {:induction false} SamePaths(a: seq<Path>, b: seq<Path>)
    requires DistinctPaths(a) && DistinctPaths(b) && forall p :: p in a <==> p in b
    ensures multiset(a) == multiset(b)
  {
    PathOnce(a);
    PathOnce(b);
    forall p ensures multiset(a)[p] == multiset(b)[p] { assert p in a <==> p in b; }
  }

  lemma {:induction false} PathOnce(a: seq<Path>)
    requires DistinctPaths(a)
    ensures forall p :: multiset(a)[p] == if p in a then 1 else 0
  {
    if a != [] {
      PathOnce(a[1..]);
      assert a == [a[0]] + a[1..] && a[0] !in a[1..];
    }
  }
}
