/** Which paths a budgeted enumeration tries, and when its budget runs out (relationship_trace.rs). */
module TriedPaths {
  import opened Wrappers
  import opened Ordering
  import opened GraphModel
  import opened EdgeFetch
  import opened GraphSearch
  import opened FollowedHops
  import opened PathSearch

  function Prolongations(path: Path, hops: seq<Hop>): (r: seq<Path>)
    ensures |r| == |hops|
  {
    seq(|hops|, i requires 0 <= i < |hops| => path + [hops[i]])
  }

  /** Every listed path above the depth limit with every hop at its end, path by path. */
  function TriedInTurn(start: string, all: Listing, listed: seq<Path>, maxDepth: nat): seq<Path> {
    if listed == [] then []
    else
      var last := listed[|listed| - 1];
      TriedInTurn(start, all, listed[..|listed| - 1], maxDepth)
      + (if |last| < maxDepth then Prolongations(last, all(End(start, last))) else [])
  }

  /** A path whose last hop leads to a stored node that the rest has not visited. */
  predicate LeadsOn(nodes: map<string, NodeRecord>, start: string, path: Path) {
    path != [] && Fits(nodes, start, path[..|path| - 1], path[|path| - 1])
  }

  function Kept(nodes: map<string, NodeRecord>, start: string, tried: seq<Path>): seq<Path> {
    if tried == [] then []
    else
      var last := tried[|tried| - 1];
      Kept(nodes, start, tried[..|tried| - 1]) + (if LeadsOn(nodes, start, last) then [last] else [])
  }

  // ------------------------------------------------------------ lists in turn

  lemma KeptLast(nodes: map<string, NodeRecord>, start: string, tried: seq<Path>, last: Path)
    ensures Kept(nodes, start, tried + [last])
         == Kept(nodes, start, tried) + (if LeadsOn(nodes, start, last) then [last] else [])
  {
    assert (tried + [last])[..|tried|] == tried;
  }

  lemma {:induction false} KeptJoined(nodes: map<string, NodeRecord>, start: string, a: seq<Path>, b: seq<Path>)
    ensures Kept(nodes, start, a + b) == Kept(nodes, start, a) + Kept(nodes, start, b)
    decreases |b|
  {
    if b == [] {
      assert a + b == a;
    } else {
      var init, last := b[..|b| - 1], b[|b| - 1];
      assert a + b == (a + init) + [last] && b == init + [last];
      KeptJoined(nodes, start, a, init);
      KeptLast(nodes, start, a + init, last);
      KeptLast(nodes, start, init, last);
    }
  }

  lemma TriedLast(start: string, all: Listing, listed: seq<Path>, last: Path, maxDepth: nat)
    ensures TriedInTurn(start, all, listed + [last], maxDepth)
         == TriedInTurn(start, all, listed, maxDepth)
            + (if |last| < maxDepth then Prolongations(last, all(End(start, last))) else [])
  {
    assert (listed + [last])[..|listed|] == listed;
  }

  lemma {:induction false} TriedPrefix(start: string, all: Listing, listed: seq<Path>, longer: seq<Path>, maxDepth: nat)
    requires listed <= longer
    ensures TriedInTurn(start, all, listed, maxDepth) <= TriedInTurn(start, all, longer, maxDepth)
  {
    if |listed| < |longer| {
      TriedPrefix(start, all, listed, longer[..|longer| - 1], maxDepth);
    } else {
      assert listed == longer;
    }
  }

  lemma ProlongationLeads(nodes: map<string, NodeRecord>, start: string, path: Path, hop: Hop)
    ensures LeadsOn(nodes, start, path + [hop]) <==> Fits(nodes, start, path, hop)
  {
    assert (path + [hop])[..|path|] == path;
  }

  lemma FirstKept(nodes: map<string, NodeRecord>, start: string, path: Path, hops: seq<Hop>)
    requires hops != []
    ensures Kept(nodes, start, Prolongations(path, hops))
         == (if Fits(nodes, start, path, hops[0]) then [path + [hops[0]]] else [])
            + Kept(nodes, start, Prolongations(path, hops[1..]))
  {
    hide Fits;
    var first := path + [hops[0]];
    assert Prolongations(path, hops) == [first] + Prolongations(path, hops[1..]);
    KeptJoined(nodes, start, [first], Prolongations(path, hops[1..]));
    KeptLast(nodes, start, [], first);
    assert [] + [first] == [first];
    ProlongationLeads(nodes, start, path, hops[0]);
  }

  /** Prolonging a path keeps those of its prolongations that lead on. */
  lemma {:induction false} ProlongKeepsThese(nodes: map<string, NodeRecord>, start: string, path: Path, hops: seq<Hop>,
                                             order: seq<Path>)
    ensures Prolong(nodes, start, path, hops, order) == order + Kept(nodes, start, Prolongations(path, hops))
    decreases |hops|
  {
    hide Fits, Prolongations;
    if hops == [] {
      assert order + [] == order;
    } else {
      var one := ProlongOne(nodes, start, path, hops[0], order);
      var rest := Kept(nodes, start, Prolongations(path, hops[1..]));
      ProlongKeepsThese(nodes, start, path, hops[1..], one);
      FirstKept(nodes, start, path, hops);
      assert order + ([path + [hops[0]]] + rest) == (order + [path + [hops[0]]]) + rest;
      assert order + ([] + rest) == order + rest;
    }
  }

  // ---------------------------------------------------------------- spending

  /** The paths listed after the empty one are those tried paths that lead on. */
  ghost predicate ListedFrom(nodes: map<string, NodeRecord>, start: string, order: seq<Path>, tried: seq<Path>) {
    order != [] && order[0] == [] && order[1..] == Kept(nodes, start, tried)
  }

  lemma ListMore(nodes: map<string, NodeRecord>, start: string, order: seq<Path>, tried: seq<Path>, path: Path,
                 hops: seq<Hop>)
    requires ListedFrom(nodes, start, order, tried)
    ensures ListedFrom(nodes, start, Prolong(nodes, start, path, hops, order), tried + Prolongations(path, hops))
  {
    var more := Kept(nodes, start, Prolongations(path, hops));
    ProlongKeepsThese(nodes, start, path, hops, order);
    KeptJoined(nodes, start, tried, Prolongations(path, hops));
    assert (order + more)[1..] == order[1..] + more;
  }

  /** The enumeration has tried all prolongations of the paths before `done`. */
  ghost predicate Under(net: Net, all: Listing, start: string, maxDepth: nat, order: seq<Path>, done: nat,
                        total: Budget, rest: Budget) {
    && done <= |order|
    && ListedFrom(net.nodes, start, order, TriedInTurn(start, all, order[..done], maxDepth))
    && Left(total, |TriedInTurn(start, all, order[..done], maxDepth)|, rest)
  }

  /** Where an enumeration ends: within the budget, or where the prolongations of the paths exceed it. */
  ghost predicate SpentOn(net: Net, all: Listing, start: string, maxDepth: nat, listed: seq<Path>, truncated: bool,
                          total: Budget) {
    var tried := TriedInTurn(start, all, listed, maxDepth);
    && (truncated <==> total < USIZE_MAX && |tried| > total)
    && ListedFrom(net.nodes, start, listed, Cut(tried, total))
  }

  lemma CutInside(before: seq<Path>, path: Path, hops: seq<Hop>, whole: seq<Path>, total: Budget, rest: Budget)
    requires before + Prolongations(path, hops) <= whole && Left(total, |before|, rest)
    requires rest < USIZE_MAX && |hops| > rest
    ensures Cut(whole, total) == before + Prolongations(path, Take(hops, rest)) && |whole| > total
  {
    assert Prolongations(path, hops)[..rest] == Prolongations(path, Take(hops, rest));
    assert whole[..total] == (before + Prolongations(path, hops))[..total] == before
           + Prolongations(path, hops)[..rest];
  }

  lemma NextPath(start: string, all: Listing, maxDepth: nat, order: seq<Path>, done: nat, after: seq<Path>)
    requires done < |order| && order <= after
    ensures var before := TriedInTurn(start, all, order[..done], maxDepth);
            var next := Prolongations(order[done], all(End(start, order[done])));
            && (|order[done]| < maxDepth ==>
                  && TriedInTurn(start, all, after[..done + 1], maxDepth) == before + next
                  && before + next <= TriedInTurn(start, all, after, maxDepth))
            && (|order[done]| >= maxDepth ==> TriedInTurn(start, all, after[..done + 1], maxDepth) == before)
  {
    hide End;
    var before := TriedInTurn(start, all, order[..done], maxDepth);
    assert after[..done + 1] == order[..done] + [order[done]];
    TriedLast(start, all, order[..done], order[done], maxDepth);
    TriedPrefix(start, all, after[..done + 1], after, maxDepth);
    assert before + [] == before;
  }

  lemma RoundTries(net: Net, fetch: Fetcher, all: Listing, start: string, maxDepth: nat, order: seq<Path>, done: nat,
                   total: Budget, rest: Budget, hops: seq<Hop>, more: bool)
    requires Cuts(net.nodes, fetch, all, total) && Under(net, all, start, maxDepth, order, done, total, rest)
    requires done < |order| && |order[done]| < maxDepth && End(start, order[done]) in net.nodes
    requires fetch(End(start, order[done]), rest) == (hops, more)
    requires order <= Prolong(net.nodes, start, order[done], hops, order)
    ensures var after := Prolong(net.nodes, start, order[done], hops, order);
            && (more ==> SpentOn(net, all, start, maxDepth, after, true, total))
            && (!more ==> Under(net, all, start, maxDepth, after, done + 1, total, Spend(rest, |hops|)))
  {
    hide Prolong, End, ListedFrom, TriedInTurn;
    var after, u := Prolong(net.nodes, start, order[done], hops, order), End(start, order[done]);
    var before := TriedInTurn(start, all, order[..done], maxDepth);
    ListMore(net.nodes, start, order, before, order[done], hops);
    NextPath(start, all, maxDepth, order, done, after);
    if more { CutInside(before, order[done], all(u), TriedInTurn(start, all, after, maxDepth), total, rest); }
  }

  lemma {:induction false} ExploreTries(net: Net, fetch: Fetcher, all: Listing, start: string, maxDepth: nat,
                                        order: seq<Path>, done: nat, total: Budget, rest: Budget,
                                        listed: seq<Path>, truncated: bool)
    requires start in net.nodes && Serving(net, fetch) && Traced(net, start, maxDepth, order, done, done)
    requires Cuts(net.nodes, fetch, all, total) && Under(net, all, start, maxDepth, order, done, total, rest)
    requires (listed, truncated) == ExplorePaths(net, fetch, start, maxDepth, order, done, rest)
    ensures SpentOn(net, all, start, maxDepth, listed, truncated, total)
    decreases |Universe(AllHops(net), maxDepth)| - done
  {
    hide Prolong, End, ListedFrom, TriedInTurn, Cuts, Serves;
    ListBound(net, start, maxDepth, order);
    if done == |order| {
      assert order[..done] == order;
      AllTried(net, all, start, maxDepth, order, total, rest);
    } else if |order[done]| == maxDepth {
      SkipKeeps(net, start, maxDepth, order, done);
      NextPath(start, all, maxDepth, order, done, order);
      ExploreTries(net, fetch, all, start, maxDepth, order, done + 1, total, rest, listed, truncated);
    } else {
      PathSearch.RoundKeeps(net, fetch, start, maxDepth, order, done, rest);
      assert order[done] in order;
      EndIsStored(net, start, order[done]);
      var (hops, more) := fetch(End(start, order[done]), rest);
      RoundTries(net, fetch, all, start, maxDepth, order, done, total, rest, hops, more);
      if !more {
        var after := Prolong(net.nodes, start, order[done], hops, order);
        ExploreTries(net, fetch, all, start, maxDepth, after, done + 1, total, Spend(rest, |hops|), listed, truncated);
      }
    }
  }

  lemma AllTried(net: Net, all: Listing, start: string, maxDepth: nat, order: seq<Path>, total: Budget, rest: Budget)
    requires Under(net, all, start, maxDepth, order, |order|, total, rest)
    ensures SpentOn(net, all, start, maxDepth, order, false, total)
  {
    hide ListedFrom, TriedInTurn;
    assert order[..|order|] == order;
  }

  /** The paths listed are those tried paths that lead on, as many tried as the budget allows, taking the
      paths listed in turn; the enumeration is cut exactly when there are more to try. */
  lemma TraceSpends(net: Net, fetch: Fetcher, all: Listing, start: string, maxDepth: nat, budget: Budget)
    requires start in net.nodes && Serving(net, fetch) && Cuts(net.nodes, fetch, all, budget)
    ensures var (paths, truncated) := TracePaths(net, fetch, start, maxDepth, budget);
            SpentOn(net, all, start, maxDepth, [[]] + paths, truncated, budget)
  {
    hide Serving, Serves, Cuts;
    var order: seq<Path> := [[]];
    FirstIsTraced(net, start, maxDepth);
    var (listed, truncated) := ExplorePaths(net, fetch, start, maxDepth, order, 0, budget);
    assert order[..0] == [] && order[1..] == [];
    ExploreTries(net, fetch, all, start, maxDepth, order, 0, budget, budget, listed, truncated);
    assert listed == order + listed[1..];
  }

  // ---------------------------------------------------------------- counting

  /** The simple paths shorter than the depth, the empty one among them. */
  ghost function ShorterPaths(net: Net, start: string, maxDepth: nat): set<Path> {
    set p | p in Universe(AllHops(net), maxDepth) && IsSimple(net, start, p) && |p| < maxDepth
  }

  /** That set leaves none out. */
  lemma ShorterPathsAre(net: Net, start: string, maxDepth: nat)
    ensures forall p :: p in ShorterPaths(net, start, maxDepth) <==> IsSimple(net, start, p) && |p| < maxDepth
  {
    forall p | IsSimple(net, start, p) && |p| < maxDepth ensures p in ShorterPaths(net, start, maxDepth) {
      UniverseHolds(net, start, p, maxDepth);
    }
  }

  ghost function ShortOf(listed: seq<Path>, maxDepth: nat): set<Path> { set p | p in listed && |p| < maxDepth }

  lemma ShortLast(init: seq<Path>, last: Path, maxDepth: nat)
    ensures ShortOf(init + [last], maxDepth) == ShortOf(init, maxDepth) + (if |last| < maxDepth then {last} else {})
  {
    assert forall p :: p in init + [last] <==> p in init || p == last;
  }

  lemma {:induction false} TriedCount(start: string, touching: Path -> set<EdgeRecord>, all: Listing, listed: seq<Path>,
                                      maxDepth: nat)
    requires DistinctPaths(listed) && forall p :: |all(End(start, p))| == |touching(p)|
    ensures |TriedInTurn(start, all, listed, maxDepth)| == |Pairs(ShortOf(listed, maxDepth), touching)|
  {
    hide Pairs, ShortOf, End;
    if listed == [] {
      NoPairs(touching);
      assert ShortOf(listed, maxDepth) == {} by { NoneShort(maxDepth); }
    } else {
      var init, last := listed[..|listed| - 1], listed[|listed| - 1];
      assert listed == init + [last];
      TriedCount(start, touching, all, init, maxDepth);
      ShortLast(init, last, maxDepth);
      TriedLast(start, all, init, last, maxDepth);
      if |last| < maxDepth {
        LastIsNew(init, last, maxDepth);
        PairsAdd(ShortOf(init, maxDepth), last, touching);
      } else {
        assert ShortOf(init, maxDepth) + {} == ShortOf(init, maxDepth);
        assert TriedInTurn(start, all, init, maxDepth) + [] == TriedInTurn(start, all, init, maxDepth);
      }
    }
  }

  lemma NoneShort(maxDepth: nat)
    ensures ShortOf([], maxDepth) == {}
  {
  }

  lemma LastIsNew(init: seq<Path>, last: Path, maxDepth: nat)
    requires DistinctPaths(init + [last])
    ensures last !in ShortOf(init, maxDepth)
  {
    var order := init + [last];
    forall p | p in init ensures p != last {
      var i :| 0 <= i < |init| && init[i] == p;
      assert order[i] == p && order[|init|] == last;
    }
  }

  /** The prolonged paths are short simple ones, and all of those when the enumeration was not cut. */
  lemma ListedAreShort(net: Net, start: string, maxDepth: nat, paths: seq<Path>, truncated: bool)
    requires maxDepth > 0 && ListsWanted(net, start, maxDepth, paths)
    requires !truncated ==> forall p :: Wanted(net, start, maxDepth, p) ==> p in paths
    ensures DistinctPaths([[]] + paths)
    ensures ShortOf([[]] + paths, maxDepth) <= ShorterPaths(net, start, maxDepth)
    ensures !truncated ==> ShortOf([[]] + paths, maxDepth) == ShorterPaths(net, start, maxDepth)
  {
    hide ShorterPaths;
    var listed: seq<Path> := [[]] + paths;
    ShorterPathsAre(net, start, maxDepth);
    assert forall p :: p in listed <==> p == [] || p in paths;
    forall a, b | 0 <= a < b < |listed| ensures listed[a] != listed[b] {
      assert listed[b] == paths[b - 1] && paths[b - 1] in paths;
    }
  }
}
