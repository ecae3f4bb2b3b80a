/** Which hops a budgeted breadth-first search follows, and when its budget runs out
    (impact_analysis.rs). */
module FollowedHops {
  import opened Wrappers
  import opened Ordering
  import opened GraphModel
  import opened EdgeFetch
  import opened Reachability
  import opened BreadthFirst
  import opened GraphSearch

  /** The hops at each node, in the order a budget cuts them. */
  type Listing = string -> seq<Hop>

  function Cut<T>(items: seq<T>, budget: Budget): seq<T> {
    if budget == USIZE_MAX then items else Take(items, budget)
  }

  /** A fetch, within a budget or without one, returns the beginning of the listing and says whether
      there was more. */
  ghost predicate Cuts(nodes: map<string, NodeRecord>, fetch: Fetcher, all: Listing, total: Budget) {
    forall u, b: Budget {:trigger fetch(u, b)} :: u in nodes && (b == USIZE_MAX <==> total == USIZE_MAX) ==>
      fetch(u, b) == (Cut(all(u), b), b < USIZE_MAX && |all(u)| > b)
  }

  /** The hops at some nodes, node by node. */
  function HopsInTurn(all: Listing, keys: seq<string>): seq<Hop> {
    if keys == [] then [] else HopsInTurn(all, keys[..|keys| - 1]) + all(keys[|keys| - 1])
  }

  /** The nodes above the depth limit, in the order of discovery. */
  function Parents(order: seq<Found>, maxDepth: nat): seq<string> {
    if order == [] then []
    else
      var last := order[|order| - 1];
      Parents(order[..|order| - 1], maxDepth) + (if last.depth < maxDepth then [last.nodeKey] else [])
  }

  /** A hop that is the first to lead to its stored node. */
  ghost predicate LeadsAnew(nodes: map<string, NodeRecord>, start: string, before: seq<Hop>, hop: Hop) {
    hop.next in nodes && hop.next != start && forall h :: h in before ==> h.next != hop.next
  }

  ghost function FirstHops(nodes: map<string, NodeRecord>, start: string, hops: seq<Hop>): seq<Hop> {
    if hops == [] then []
    else
      var before, last := hops[..|hops| - 1], hops[|hops| - 1];
      FirstHops(nodes, start, before) + (if LeadsAnew(nodes, start, before, last) then [last] else [])
  }

  /** The nodes found are those some hops lead to, each by the first hop that does, in that order. */
  ghost predicate ReachedBy(nodes: map<string, NodeRecord>, start: string, found: seq<Found>, hops: seq<Hop>) {
    var first := FirstHops(nodes, start, hops);
    && |found| == |first|
    && forall j :: 0 <= j < |found| ==> found[j].nodeKey == first[j].next && found[j].via == Some(first[j].edge)
  }

  // ---------------------------------------------------------------- counting

  /** Each item with each of the things at it: as many as those things, item by item, together. */
  ghost function Pairs<T(!new), E(!new)>(items: set<T>, at: T -> set<E>): set<(T, E)> {
    set x, e | x in items && e in at(x) :: (x, e)
  }

  lemma PairsGrow<T(!new), E(!new)>(items: set<T>, more: set<T>, at: T -> set<E>)
    requires items <= more
    ensures |Pairs(items, at)| <= |Pairs(more, at)|
  {
    SubsetCount(Pairs(items, at), Pairs(more, at));
  }

  lemma PairsAdd<T(!new), E(!new)>(items: set<T>, x: T, at: T -> set<E>)
    requires x !in items
    ensures |Pairs(items + {x}, at)| == |Pairs(items, at)| + |at(x)|
  {
    var here := set e | e in at(x) :: (x, e);
    PairedCount(x, at(x), here);
    assert Pairs(items + {x}, at) == Pairs(items, at) + here;
    assert Pairs(items, at) !! here;
  }

  lemma {:induction false} PairedCount<T(!new), E(!new)>(x: T, things: set<E>, pairs: set<(T, E)>)
    requires pairs == set e | e in things :: (x, e)
    ensures |pairs| == |things|
    decreases |things|
  {
    if things != {} {
      var e :| e in things;
      assert (x, e) in pairs;
      PairedCount(x, things - {e}, pairs - {(x, e)});
    }
  }

  lemma NoPairs<T(!new), E(!new)>(at: T -> set<E>)
    ensures |Pairs({}, at)| == 0
  {
    assert Pairs({}, at) == {};
  }

  // ------------------------------------------------------------ lists in turn

  lemma TurnsLast(all: Listing, keys: seq<string>, last: string)
    ensures HopsInTurn(all, keys + [last]) == HopsInTurn(all, keys) + all(last)
  {
    assert (keys + [last])[..|keys|] == keys;
  }

  lemma {:induction false} TurnsPrefix(all: Listing, keys: seq<string>, longer: seq<string>)
    requires keys <= longer
    ensures HopsInTurn(all, keys) <= HopsInTurn(all, longer)
  {
    if |keys| < |longer| {
      var init := longer[..|longer| - 1];
      TurnsPrefix(all, keys, init);
    } else {
      assert keys == longer;
    }
  }

  lemma ParentsLast(order: seq<Found>, last: Found, maxDepth: nat)
    ensures Parents(order + [last], maxDepth)
         == Parents(order, maxDepth) + (if last.depth < maxDepth then [last.nodeKey] else [])
  {
    assert (order + [last])[..|order|] == order;
  }

  lemma {:induction false} ParentsPrefix(order: seq<Found>, longer: seq<Found>, maxDepth: nat)
    requires order <= longer
    ensures Parents(order, maxDepth) <= Parents(longer, maxDepth)
  {
    if |order| < |longer| {
      ParentsPrefix(order, longer[..|longer| - 1], maxDepth);
    } else {
      assert order == longer;
    }
  }

  lemma FirstLast(nodes: map<string, NodeRecord>, start: string, before: seq<Hop>, last: Hop)
    ensures FirstHops(nodes, start, before + [last])
         == FirstHops(nodes, start, before) + (if LeadsAnew(nodes, start, before, last) then [last] else [])
  {
    assert (before + [last])[..|before|] == before;
  }

  lemma {:induction false} FirstTargets(nodes: map<string, NodeRecord>, start: string, hops: seq<Hop>, target: string)
    ensures (exists f :: f in FirstHops(nodes, start, hops) && f.next == target)
            <==> target in nodes && target != start && exists h :: h in hops && h.next == target
  {
    if hops != [] {
      var before, last := hops[..|hops| - 1], hops[|hops| - 1];
      assert hops == before + [last];
      FirstTargets(nodes, start, before, target);
      var firsts, now := FirstHops(nodes, start, before), FirstHops(nodes, start, hops);
      assert forall f :: f in now <==> f in firsts || (f == last && LeadsAnew(nodes, start, before, last));
    }
  }

  // -------------------------------------------------------------- following

  /** The discoveries, after the start, are those the followed hops lead to. */
  ghost predicate Reached(nodes: map<string, NodeRecord>, start: string, order: seq<Found>, hops: seq<Hop>) {
    && order != [] && order[0].nodeKey == start && start in nodes
    && ReachedBy(nodes, start, order[1..], hops)
  }

  lemma KnownTargets(nodes: map<string, NodeRecord>, start: string, order: seq<Found>, hops: seq<Hop>, target: string)
    requires Reached(nodes, start, order, hops) && target in nodes
    ensures target in Keys(order) <==> target == start || exists h :: h in hops && h.next == target
  {
    var first := FirstHops(nodes, start, hops);
    FirstTargets(nodes, start, hops, target);
    if target in Keys(order) && target != start {
      var j :| 0 <= j < |order| && order[j].nodeKey == target;
      assert order[1..][j - 1] == order[j] && first[j - 1] in first;
    }
    if f :| f in first && f.next == target {
      var j :| 0 <= j < |first| && first[j] == f;
      assert order[1..][j] == order[j + 1] && order[j + 1] in order;
    }
    assert order[0] in order;
  }

  lemma ReachedMore(found: seq<Found>, last: Found, first: seq<Hop>, hop: Hop)
    requires |found| == |first| && last.nodeKey == hop.next && last.via == Some(hop.edge)
    requires forall j :: 0 <= j < |found| ==> found[j].nodeKey == first[j].next && found[j].via == Some(first[j].edge)
    ensures forall j :: 0 <= j < |found + [last]| ==>
              (found + [last])[j].nodeKey == (first + [hop])[j].next
              && (found + [last])[j].via == Some((first + [hop])[j].edge)
  {
  }

  lemma FollowOne(nodes: map<string, NodeRecord>, start: string, order: seq<Found>, hops: seq<Hop>, parent: Found,
                  hop: Hop)
    requires Reached(nodes, start, order, hops)
    ensures Reached(nodes, start, AbsorbOne(nodes, parent, hop, order), hops + [hop])
  {
    hide FirstHops, Keys;
    FirstLast(nodes, start, hops, hop);
    var first := FirstHops(nodes, start, hops);
    if hop.next in nodes {
      KnownTargets(nodes, start, order, hops, hop.next);
      assert LeadsAnew(nodes, start, hops, hop) <==> hop.next !in Keys(order);
      if hop.next !in Keys(order) {
        var one := AbsorbOne(nodes, parent, hop, order);
        assert one[1..] == order[1..] + [Discovery(nodes, parent, hop)];
        ReachedMore(order[1..], Discovery(nodes, parent, hop), first, hop);
      }
    }
    assert first + [] == first;
  }

  lemma {:induction false} FollowAll(nodes: map<string, NodeRecord>, start: string, order: seq<Found>, hops: seq<Hop>,
                                     parent: Found, more: seq<Hop>)
    requires Reached(nodes, start, order, hops)
    ensures Reached(nodes, start, Absorb(nodes, parent, more, order), hops + more)
    decreases |more|
  {
    hide Reached;
    if more == [] {
      assert hops + more == hops;
    } else {
      FollowOne(nodes, start, order, hops, parent, more[0]);
      FollowAll(nodes, start, AbsorbOne(nodes, parent, more[0], order), hops + [more[0]], parent, more[1..]);
      assert hops + more == (hops + [more[0]]) + more[1..];
    }
  }

  // ---------------------------------------------------------------- spending

  /** What is left after following some hops under a budget. */
  ghost predicate Left(total: Budget, followed: nat, rest: Budget) {
    if total == USIZE_MAX then rest == USIZE_MAX else rest < USIZE_MAX && followed + rest == total
  }

  /** The search has followed all hops of the nodes before `done`. */
  ghost predicate Under(net: Net, all: Listing, start: string, maxDepth: nat, order: seq<Found>, done: nat,
                        total: Budget, rest: Budget) {
    && done <= |order| && Stored(net.nodes, order)
    && Reached(net.nodes, start, order, HopsInTurn(all, Parents(order[..done], maxDepth)))
    && Left(total, |HopsInTurn(all, Parents(order[..done], maxDepth))|, rest)
  }

  /** Where a search ends: within the budget, or where the hops of the nodes found exceed it. */
  ghost predicate Spent(net: Net, all: Listing, start: string, maxDepth: nat, found: seq<Found>, truncated: bool,
                        total: Budget) {
    var hops := HopsInTurn(all, Parents(found, maxDepth));
    && (truncated <==> total < USIZE_MAX && |hops| > total)
    && Reached(net.nodes, start, found, Cut(hops, total))
  }

  /** The hops of the next node follow those of the nodes before it. */
  lemma NextParent(all: Listing, maxDepth: nat, order: seq<Found>, done: nat, after: seq<Found>)
    requires done < |order| && order <= after
    ensures var before := HopsInTurn(all, Parents(order[..done], maxDepth));
            && (order[done].depth < maxDepth ==>
                  && HopsInTurn(all, Parents(after[..done + 1], maxDepth)) == before + all(order[done].nodeKey)
                  && before + all(order[done].nodeKey) <= HopsInTurn(all, Parents(after, maxDepth)))
            && (order[done].depth >= maxDepth ==> HopsInTurn(all, Parents(after[..done + 1], maxDepth)) == before)
  {
    var keys := Parents(order[..done], maxDepth);
    assert after[..done + 1] == order[..done] + [order[done]];
    ParentsLast(order[..done], order[done], maxDepth);
    if order[done].depth < maxDepth {
      TurnsLast(all, keys, order[done].nodeKey);
      ParentsPrefix(after[..done + 1], after, maxDepth);
      TurnsPrefix(all, keys + [order[done].nodeKey], Parents(after, maxDepth));
    } else {
      assert keys + [] == keys;
    }
  }

  lemma RoundFollows(net: Net, fetch: Fetcher, all: Listing, start: string, maxDepth: nat, order: seq<Found>, done: nat,
                     total: Budget, rest: Budget, hops: seq<Hop>, more: bool)
    requires Cuts(net.nodes, fetch, all, total) && Distinct(order)
             && Under(net, all, start, maxDepth, order, done, total, rest)
    requires done < |order| && order[done].depth < maxDepth && fetch(order[done].nodeKey, rest) == (hops, more)
    ensures var after := Absorb(net.nodes, order[done], hops, order);
            && (more ==> Spent(net, all, start, maxDepth, after, true, total))
            && (!more ==> Under(net, all, start, maxDepth, after, done + 1, total, Spend(rest, |hops|)))
  {
    hide Absorb, Reached, HopsInTurn, Parents, Distinct;
    var after, u := Absorb(net.nodes, order[done], hops, order), order[done].nodeKey;
    var before := HopsInTurn(all, Parents(order[..done], maxDepth));
    AbsorbKeepsList(net.nodes, order[done], hops, order);
    FollowAll(net.nodes, start, order, before, order[done], hops);
    assert order[done] in order;
    NextParent(all, maxDepth, order, done, after);
    if more { CutInside(before, all(u), HopsInTurn(all, Parents(after, maxDepth)), total, rest); }
  }

  lemma CutInside(before: seq<Hop>, next: seq<Hop>, whole: seq<Hop>, total: Budget, rest: Budget)
    requires before + next <= whole && Left(total, |before|, rest) && rest < USIZE_MAX && |next| > rest
    ensures Cut(whole, total) == before + Take(next, rest) && |whole| > total
  {
    assert whole[..total] == (before + next)[..total] == before + next[..rest];
  }

  lemma {:induction false} ExploreSpends(net: Net, fetch: Fetcher, all: Listing, start: string, maxDepth: nat,
                                         order: seq<Found>, done: nat, total: Budget, rest: Budget)
    requires Cuts(net.nodes, fetch, all, total) && Distinct(order)
             && Under(net, all, start, maxDepth, order, done, total, rest)
    requires forall f :: f in order ==> f.depth <= maxDepth
    ensures var (found, truncated) := Explore(net, fetch, maxDepth, order, done, rest);
            Spent(net, all, start, maxDepth, found, truncated, total)
    decreases |net.nodes| - done
  {
    hide Absorb, Reached, HopsInTurn, Parents;
    DistinctBound(net.nodes, order);
    if done == |order| {
      assert order[..done] == order;
    } else if order[done].depth == maxDepth {
      NextParent(all, maxDepth, order, done, order);
      ExploreSpends(net, fetch, all, start, maxDepth, order, done + 1, total, rest);
    } else {
      assert order[done] in order;
      var (hops, more) := fetch(order[done].nodeKey, rest);
      var after := Absorb(net.nodes, order[done], hops, order);
      RoundFollows(net, fetch, all, start, maxDepth, order, done, total, rest, hops, more);
      ExploreRound(net, fetch, maxDepth, order, done, rest, hops, more);
      if !more {
        AbsorbDepths(net.nodes, order[done], hops, order, maxDepth);
        ExploreSpends(net, fetch, all, start, maxDepth, after, done + 1, total, Spend(rest, |hops|));
      }
    }
  }

  lemma {:induction false} AbsorbDepths(nodes: map<string, NodeRecord>, parent: Found, hops: seq<Hop>,
                                        order: seq<Found>, maxDepth: nat)
    requires parent.depth < maxDepth && forall f :: f in order ==> f.depth <= maxDepth
    ensures forall f :: f in Absorb(nodes, parent, hops, order) ==> f.depth <= maxDepth
    decreases |hops|
  {
    if hops != [] { AbsorbDepths(nodes, parent, hops[1..], AbsorbOne(nodes, parent, hops[0], order), maxDepth); }
  }

  /** The nodes found are those the first hops lead to, as many as the budget allows, taking the hops of
      the start and of the nodes found in turn; the search is cut exactly when there are more. */
  lemma SearchSpends(net: Net, fetch: Fetcher, all: Listing, start: string, maxDepth: nat, budget: Budget)
    requires start in net.nodes && Cuts(net.nodes, fetch, all, budget)
    ensures var (nodes, truncated) := Search(net, fetch, start, maxDepth, budget);
            Spent(net, all, start, maxDepth, [StartOf(net, start)] + nodes, truncated, budget)
  {
    var order := [StartOf(net, start)];
    assert order[..0] == [] && order[1..] == [];
    ExploreSpends(net, fetch, all, start, maxDepth, order, 0, budget, budget);
    var (found, truncated) := Explore(net, fetch, maxDepth, order, 0, budget);
    StartStays(net, fetch, maxDepth, order, 0, budget);
    assert found == order + found[1..];
  }

  lemma {:induction false} StartStays(net: Net, fetch: Fetcher, maxDepth: nat, order: seq<Found>, done: nat,
                                      budget: Budget)
    requires Distinct(order) && Stored(net.nodes, order) && done <= |order|
    ensures order <= Explore(net, fetch, maxDepth, order, done, budget).0
    decreases |net.nodes| - done
  {
    DistinctBound(net.nodes, order);
    if done < |order| {
      if order[done].depth == maxDepth {
        StartStays(net, fetch, maxDepth, order, done + 1, budget);
      } else {
        var (hops, more) := fetch(order[done].nodeKey, budget);
        ExploreRound(net, fetch, maxDepth, order, done, budget, hops, more);
        if !more {
          StartStays(net, fetch, maxDepth, Absorb(net.nodes, order[done], hops, order), done + 1,
                     Spend(budget, |hops|));
        }
      }
    }
  }
}
