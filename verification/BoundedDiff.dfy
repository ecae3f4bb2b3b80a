/** The bounded schema diff: exact counts, cut lists, and impacts that share one budget
    (schema_diff.rs). */
module BoundedDiff {
  import opened Wrappers
  import opened Lists
  import opened Ordering
  import opened GraphModel
  import opened EdgeFetch
  import opened Reachability
  import opened BreadthFirst
  import opened GraphSearch
  import opened ImpactAnalysis
  import opened SchemaDiff

  /** Where an impact analysis starts: a node of one of the two snapshots. */
  datatype Seed = Seed(snapshotKey: string, nodeKey: string)

  function SeedOrder(s: Seed): SortKey { SortKey(0, [s.snapshotKey, s.nodeKey], 0) }

  function Seeds(fromKey: string, toKey: string, c: Comparison): set<Seed> {
    (set n | n in c.addedNodes :: Seed(toKey, n.nodeKey))
    + (set n | n in c.removedNodes :: Seed(fromKey, n.nodeKey))
    + (set n | n in c.changedNodes :: Seed(toKey, n.after.nodeKey))
  }

  /** `changed_impact_seeds`: inserts into an ordered set, list after list. */
  method CollectSeeds(fromKey: string, toKey: string, c: Comparison) returns (seeds: set<Seed>)
    ensures seeds == Seeds(fromKey, toKey, c)
  {
    seeds := {};
    for i := 0 to |c.addedNodes|
      invariant seeds == set n | n in c.addedNodes[..i] :: Seed(toKey, n.nodeKey)
    {
      PrefixLast(c.addedNodes, i);
      seeds := seeds + {Seed(toKey, c.addedNodes[i].nodeKey)};
    }
    WholePrefix(c.addedNodes);
    ghost var added := seeds;
    for i := 0 to |c.removedNodes|
      invariant seeds == added + set n | n in c.removedNodes[..i] :: Seed(fromKey, n.nodeKey)
    {
      PrefixLast(c.removedNodes, i);
      seeds := seeds + {Seed(fromKey, c.removedNodes[i].nodeKey)};
    }
    WholePrefix(c.removedNodes);
    ghost var both := seeds;
    for i := 0 to |c.changedNodes|
      invariant seeds == both + set n | n in c.changedNodes[..i] :: Seed(toKey, n.after.nodeKey)
    {
      PrefixLast(c.changedNodes, i);
      seeds := seeds + {Seed(toKey, c.changedNodes[i].after.nodeKey)};
    }
    WholePrefix(c.changedNodes);
  }

  function SeedsInOrder(seeds: set<Seed>): (r: seq<Seed>)
    ensures |r| == |seeds| && forall s :: s in r <==> s in seeds
    ensures StrictlySorted(r, SeedOrder)
  {
    assert Distinguishes(seeds, SeedOrder) by {
      forall x, y | x in seeds && y in seeds && SeedOrder(x) == SeedOrder(y) ensures x == y {
        assert [x.snapshotKey, x.nodeKey][0] == [y.snapshotKey, y.nodeKey][0]
               && [x.snapshotKey, x.nodeKey][1] == [y.snapshotKey, y.nodeKey][1];
      }
    }
    OrderBy(seeds, SeedOrder)
  }

  // ------------------------------------------------------------------ impacts

  datatype DiffImpact = DiffImpact(seed: Seed, nodes: seq<Found>, truncated: bool)

  /** The graph stored under a snapshot key, empty when there is none. */
  function GraphIn(stored: map<string, Graph>, key: string): Graph {
    if key in stored then stored[key] else Rows(map[], map[])
  }

  function ImpactOf(stored: map<string, Graph>, depth: nat, seed: Seed, budget: Budget): DiffImpact {
    var (nodes, truncated) := Impact(GraphIn(stored, seed.snapshotKey), Both, seed.nodeKey, depth, budget);
    DiffImpact(seed, nodes, truncated)
  }

  /** The budget left after some results; the unbounded one never shrinks. */
  function Left(budget: Budget, used: nat): Budget {
    if budget == USIZE_MAX then USIZE_MAX else if used < budget then budget - used else 0
  }

  function ImpactsOf(stored: map<string, Graph>, depth: nat, seeds: seq<Seed>, budget: Budget): seq<DiffImpact> {
    if seeds == [] then []
    else
      var first := ImpactOf(stored, depth, seeds[0], budget);
      [first] + ImpactsOf(stored, depth, seeds[1..], Left(budget, |first.nodes|))
  }

  predicate AnyTruncated(impacts: seq<DiffImpact>) { exists i :: i in impacts && i.truncated }

  function ImpactSize(i: DiffImpact): nat { |i.nodes| }

  /** The size of a result is counted over its groups, which hold each node once. */
  method CountGrouped(nodes: seq<Found>) returns (count: nat)
    ensures count == |nodes|
  {
    var groups := GroupNodes(nodes);
    count := 0;
    for i := 0 to |groups|
      invariant count == |Members(groups[..i])|
    {
      PrefixLast(groups, i);
      MembersLast(groups[..i], groups[i]);
      count := count + |groups[i].nodes|;
    }
    WholePrefix(groups);
  }

  lemma {:induction false} MembersLast(groups: seq<Group>, last: Group)
    ensures |Members(groups + [last])| == |Members(groups)| + |last.nodes|
  {
    if groups == [] {
      assert [last][1..] == [];
    } else {
      assert (groups + [last])[1..] == groups[1..] + [last];
      MembersLast(groups[1..], last);
    }
  }

  /** One seed's analysis, and what it leaves of the budget. */
  method AnalyseSeed(stored: map<string, Graph>, depth: nat, seed: Seed, remaining: Budget)
    returns (impact: DiffImpact, left: Budget)
    ensures impact == ImpactOf(stored, depth, seed, remaining) && left == Left(remaining, |impact.nodes|)
  {
    var nodes, cut := ImpactAnalysisBounded(GraphIn(stored, seed.snapshotKey), Both, seed.nodeKey, depth, remaining);
    var count := CountGrouped(nodes);
    impact := DiffImpact(seed, nodes, cut);
    left := remaining;
    if remaining != USIZE_MAX { left := if count < remaining then remaining - count else 0; }
  }

  lemma ImpactsStep(stored: map<string, Graph>, depth: nat, seeds: seq<Seed>, i: nat, budget: Budget,
                    impacts: seq<DiffImpact>)
    requires i < |seeds|
    ensures var first := ImpactOf(stored, depth, seeds[i], budget);
            var rest := ImpactsOf(stored, depth, seeds[i + 1..], Left(budget, |first.nodes|));
            impacts + ImpactsOf(stored, depth, seeds[i..], budget) == (impacts + [first]) + rest
  {
    assert seeds[i..][1..] == seeds[i + 1..];
    var first := ImpactOf(stored, depth, seeds[i], budget);
    AppendedThen(impacts, first, ImpactsOf(stored, depth, seeds[i + 1..], Left(budget, |first.nodes|)));
  }

  lemma AppendedThen<T>(a: seq<T>, x: T, b: seq<T>)
    ensures a + ([x] + b) == (a + [x]) + b
  {
  }

  /** `changed_impacts`: one analysis per seed, each with what the earlier ones left of the budget. */
  method ChangedImpacts(stored: map<string, Graph>, depth: nat, seeds: set<Seed>, limit: Budget)
    returns (impacts: seq<DiffImpact>, truncated: bool)
    ensures impacts == ImpactsOf(stored, depth, Take(SeedsInOrder(seeds), limit), limit)
    ensures truncated <==> |seeds| > limit || AnyTruncated(impacts)
  {
    impacts, truncated := AnalyseSeeds(stored, depth, Take(SeedsInOrder(seeds), limit), limit);
    truncated := truncated || |seeds| > limit;
  }

  method AnalyseSeeds(stored: map<string, Graph>, depth: nat, seeds: seq<Seed>, limit: Budget)
    returns (impacts: seq<DiffImpact>, truncated: bool)
    ensures impacts == ImpactsOf(stored, depth, seeds, limit)
    ensures truncated <==> AnyTruncated(impacts)
  {
    var remaining: Budget := limit;
    impacts, truncated := [], false;
    assert seeds[0..] == seeds;
    for i := 0 to |seeds|
      invariant impacts + ImpactsOf(stored, depth, seeds[i..], remaining) == ImpactsOf(stored, depth, seeds, limit)
      invariant truncated <==> AnyTruncated(impacts)
    {
      ImpactsStep(stored, depth, seeds, i, remaining, impacts);
      var impact, left := AnalyseSeed(stored, depth, seeds[i], remaining);
      AnyTruncatedLast(impacts, impact);
      impacts := impacts + [impact];
      truncated := truncated || impact.truncated;
      remaining := left;
    }
    assert seeds[|seeds|..] == [] && impacts + [] == impacts;
  }

  lemma AnyTruncatedLast(impacts: seq<DiffImpact>, last: DiffImpact)
    ensures AnyTruncated(impacts + [last]) <==> AnyTruncated(impacts) || last.truncated
  {
    assert last in impacts + [last];
    assert forall i :: i in impacts ==> i in impacts + [last];
  }

  // ----------------------------------------------------------- bounded diff

  datatype Counts = Counts(addedNodes: nat, removedNodes: nat, changedNodes: nat, addedEdges: nat, removedEdges: nat,
                           impactedSeeds: nat)

  datatype Diff = Diff(fromKey: string, toKey: string, lists: Comparison, impacted: seq<DiffImpact>, counts: Counts,
                       resultLimit: Budget, truncated: bool)

  function Cut(c: Comparison, limit: Budget): Comparison {
    Comparison(Take(c.addedNodes, limit), Take(c.removedNodes, limit), Take(c.changedNodes, limit),
               Take(c.addedEdges, limit), Take(c.removedEdges, limit))
  }

  predicate Exceeds(c: Comparison, limit: Budget) {
    || |c.addedNodes| > limit || |c.removedNodes| > limit || |c.changedNodes| > limit || |c.addedEdges| > limit
       || |c.removedEdges| > limit
  }

  function FullOf(stored: map<string, Graph>, fromKey: string, toKey: string): Comparison {
    Compare(GraphIn(stored, fromKey), GraphIn(stored, toKey))
  }

  /** What a diff of two stored snapshots must be. */
  ghost predicate IsDiff(stored: map<string, Graph>, fromKey: string, toKey: string, depth: nat, limit: Budget,
                         d: Diff) {
    var full := FullOf(stored, fromKey, toKey);
    var seeds := Seeds(fromKey, toKey, full);
    && d.fromKey == fromKey && d.toKey == toKey && d.resultLimit == limit
    && d.counts == Counts(|full.addedNodes|, |full.removedNodes|, |full.changedNodes|, |full.addedEdges|,
                          |full.removedEdges|, |seeds|)
    && d.lists == Cut(full, limit)
    && d.impacted == ImpactsOf(stored, depth, Take(SeedsInOrder(seeds), limit), limit)
    && (d.truncated <==> Exceeds(full, limit) || |seeds| > limit || AnyTruncated(d.impacted))
  }

  /** Snapshots without a difference give an empty diff: no counts, no impacts, nothing cut. */
  lemma NoDifferenceNoImpact(stored: map<string, Graph>, fromKey: string, toKey: string, depth: nat, limit: Budget,
                             d: Diff)
    requires IsDiff(stored, fromKey, toKey, depth, limit, d) && FullOf(stored, fromKey, toKey) == NoDifference
    ensures d == Diff(fromKey, toKey, NoDifference, [], Counts(0, 0, 0, 0, 0, 0), limit, false)
  {
    hide FullOf;
    assert Seeds(fromKey, toKey, NoDifference) == {};
    assert SeedsInOrder({}) == [];
  }

  /** `build_schema_diff`. */
  method BuildSchemaDiff(stored: map<string, Graph>, fromKey: string, toKey: string, depth: nat, limit: Budget)
    returns (d: Diff)
    ensures IsDiff(stored, fromKey, toKey, depth, limit, d)
  {
    var c := CompareSnapshots(GraphIn(stored, fromKey), GraphIn(stored, toKey));
    var seeds := CollectSeeds(fromKey, toKey, c);
    var counts := Counts(|c.addedNodes|, |c.removedNodes|, |c.changedNodes|, |c.addedEdges|, |c.removedEdges|, |seeds|);
    var impacted, impactTruncated := ChangedImpacts(stored, depth, seeds, limit);
    d := Diff(fromKey, toKey, Cut(c, limit), impacted, counts, limit, impactTruncated || Exceeds(c, limit));
  }

  // -------------------------------------------------------------------- laws

  lemma ImpactFits(stored: map<string, Graph>, depth: nat, seed: Seed, budget: Budget)
    ensures budget < USIZE_MAX ==> |ImpactOf(stored, depth, seed, budget).nodes| <= budget
    ensures budget == USIZE_MAX ==> !ImpactOf(stored, depth, seed, budget).truncated
  {
    var g := GraphIn(stored, seed.snapshotKey);
    if seed.nodeKey in g.nodes { ImpactIsExact(g, Both, seed.nodeKey, depth, budget); }
  }

  /** All impacts of a bounded diff together hold no more nodes than its limit. */
  lemma {:induction false} ImpactsShareTheBudget(stored: map<string, Graph>, depth: nat, seeds: seq<Seed>,
                                                 budget: Budget)
    requires budget < USIZE_MAX
    ensures SumOf(ImpactsOf(stored, depth, seeds, budget), ImpactSize) <= budget
  {
    if seeds != [] {
      var first := ImpactOf(stored, depth, seeds[0], budget);
      ImpactFits(stored, depth, seeds[0], budget);
      var rest := ImpactsOf(stored, depth, seeds[1..], Left(budget, |first.nodes|));
      ImpactsShareTheBudget(stored, depth, seeds[1..], Left(budget, |first.nodes|));
      SumOfCons(first, rest, ImpactSize);
    }
  }

  /** What one analysis in both directions must give: every node nearest first at its distance, as many as
      following edges in turn reaches before the budget is spent, cut just when the budget is too small. */
  ghost predicate Analyses(g: Graph, depth: nat, budget: Budget, i: DiffImpact) {
    var start := i.seed.nodeKey;
    && start in g.nodes
    && ExactDistances(NetOf(g, Both), start, depth, i.nodes) && NearestFirst(NetOf(g, Both), start, depth, i.nodes)
    && (!i.truncated ==> Keys(i.nodes) == Ball(NetOf(g, Both).adjacent, start, depth) - {start})
    && (depth > 0 && budget < USIZE_MAX ==>
          (i.truncated <==> |EdgeVisits(g, Both, Ball(NetOf(g, Both).adjacent, start, depth - 1))| > budget))
    && (depth == 0 || budget == USIZE_MAX ==> !i.truncated)
    && FollowsFirst(g, Both, start, depth, budget, i.nodes)
  }

  /** What earlier impacts leave of a budget: each takes as many as it has nodes. */
  ghost function Unspent(limit: Budget, before: seq<DiffImpact>): int {
    if limit == USIZE_MAX then USIZE_MAX else limit - SumOf(before, ImpactSize)
  }

  ghost predicate AnalysedAt(stored: map<string, Graph>, depth: nat, budget: Budget, impacts: seq<DiffImpact>, i: nat)
    requires i < |impacts|
  {
    && 0 <= Unspent(budget, impacts[..i]) <= USIZE_MAX
    && Analyses(GraphIn(stored, impacts[i].seed.snapshotKey), depth, Unspent(budget, impacts[..i]), impacts[i])
  }

  lemma OneAnalysed(stored: map<string, Graph>, depth: nat, seed: Seed, budget: Budget)
    requires seed.nodeKey in GraphIn(stored, seed.snapshotKey).nodes
    ensures ImpactOf(stored, depth, seed, budget).seed == seed
    ensures Analyses(GraphIn(stored, seed.snapshotKey), depth, budget, ImpactOf(stored, depth, seed, budget))
  {
    hide ExactDistances, NearestFirst, FollowsFirst, EdgeVisits, Ball, NetOf, Impact, GraphIn;
    var g := GraphIn(stored, seed.snapshotKey);
    ImpactIsExact(g, Both, seed.nodeKey, depth, budget);
    ImpactSpends(g, Both, seed.nodeKey, depth, budget);
  }

  /** Seeds are analysed in turn, each with the limit less the nodes already reported. */
  lemma {:induction false} AnalysedInTurn(stored: map<string, Graph>, depth: nat, seeds: seq<Seed>, budget: Budget,
                                          impacts: seq<DiffImpact>)
    requires impacts == ImpactsOf(stored, depth, seeds, budget)
    requires forall seed :: seed in seeds ==> seed.nodeKey in GraphIn(stored, seed.snapshotKey).nodes
    ensures |impacts| == |seeds|
    ensures forall i :: 0 <= i < |impacts| ==>
              impacts[i].seed == seeds[i] && AnalysedAt(stored, depth, budget, impacts, i)
  {
    hide Analyses, GraphIn, ImpactOf;
    if seeds != [] {
      var first := ImpactOf(stored, depth, seeds[0], budget);
      var left := Left(budget, |first.nodes|);
      var rest := ImpactsOf(stored, depth, seeds[1..], left);
      OneAnalysed(stored, depth, seeds[0], budget);
      ImpactFits(stored, depth, seeds[0], budget);
      AnalysedInTurn(stored, depth, seeds[1..], left, rest);
      assert impacts == [first] + rest && impacts[..0] == [];
      forall i | 0 < i < |impacts| ensures impacts[i].seed == seeds[i]
          && AnalysedAt(stored, depth, budget, impacts, i) {
        assert impacts[..i] == [first] + rest[..i - 1] && AnalysedAt(stored, depth, left, rest, i - 1);
        SumOfCons(first, rest[..i - 1], ImpactSize);
      }
    }
  }

  /** Two impacts that name the same nodes at the same depths. */
  ghost predicate SameImpact(a: DiffImpact, b: DiffImpact) {
    a.seed == b.seed && Depths(a.nodes) == Depths(b.nodes) && a.truncated == b.truncated
  }

  lemma UncutImpact(stored: map<string, Graph>, depth: nat, seed: Seed, b1: Budget, b2: Budget)
    requires b1 <= b2 && !ImpactOf(stored, depth, seed, b1).truncated
    ensures b2 < USIZE_MAX || b1 == USIZE_MAX ==> ImpactOf(stored, depth, seed, b1) == ImpactOf(stored, depth, seed, b2)
    ensures SameImpact(ImpactOf(stored, depth, seed, b1), ImpactOf(stored, depth, seed, b2))
  {
    ImpactFits(stored, depth, seed, b2);
    var g := GraphIn(stored, seed.snapshotKey);
    if b1 < USIZE_MAX { ImpactBudgetLaws(g, Both, seed.nodeKey, depth, b1, if b2 < USIZE_MAX then b2 else b1); }
  }

  /** When no impact was cut, a larger budget finds the same nodes at the same depths, seed by seed. */
  lemma {:induction false} UncutImpactsAgree(stored: map<string, Graph>, depth: nat, seeds: seq<Seed>, b1: Budget,
                                             b2: Budget)
    requires b1 <= b2 && !AnyTruncated(ImpactsOf(stored, depth, seeds, b1))
    ensures var x, y := ImpactsOf(stored, depth, seeds, b1), ImpactsOf(stored, depth, seeds, b2);
            |x| == |y| == |seeds| && forall i :: 0 <= i < |x| ==> SameImpact(x[i], y[i])
  {
    hide ImpactOf;
    if seeds != [] {
      var x, y := ImpactOf(stored, depth, seeds[0], b1), ImpactOf(stored, depth, seeds[0], b2);
      var rest := ImpactsOf(stored, depth, seeds[1..], Left(b1, |x.nodes|));
      AnyTruncatedFirst(x, rest);
      UncutImpact(stored, depth, seeds[0], b1, b2);
      UncutImpactsAgree(stored, depth, seeds[1..], Left(b1, |x.nodes|), Left(b2, |y.nodes|));
    }
  }

  lemma AnyTruncatedFirst(first: DiffImpact, rest: seq<DiffImpact>)
    ensures AnyTruncated([first] + rest) <==> first.truncated || AnyTruncated(rest)
  {
    assert first in [first] + rest;
    assert forall i :: i in rest ==> i in [first] + rest;
  }

  lemma UncutListsAgree(full: Comparison, limit: Budget, larger: Budget)
    requires limit <= larger && !Exceeds(full, limit)
    ensures Cut(full, limit) == Cut(full, larger) == full
  {
  }

  lemma UncutSeedsAgree(seeds: seq<Seed>, limit: Budget, larger: Budget)
    requires limit <= larger && |seeds| <= limit
    ensures Take(seeds, limit) == Take(seeds, larger) == seeds
  {
  }

  /** The impacts a diff of some lists reports under a limit. */
  function ImpactsFor(stored: map<string, Graph>, fromKey: string, toKey: string, full: Comparison, depth: nat,
                      limit: Budget): seq<DiffImpact> {
    ImpactsOf(stored, depth, Take(SeedsInOrder(Seeds(fromKey, toKey, full)), limit), limit)
  }

  /** A bounded diff that was not truncated agrees with every larger one, the unbounded one included:
      the same full lists, the same seeds, and per seed the same nodes at the same depths. */
  lemma UncutDiffIsFull(stored: map<string, Graph>, fromKey: string, toKey: string, full: Comparison, depth: nat,
                        limit: Budget, larger: Budget)
    requires limit <= larger
    requires !(Exceeds(full, limit) || |Seeds(fromKey, toKey, full)| > limit
               || AnyTruncated(ImpactsFor(stored, fromKey, toKey, full, depth, limit)))
    ensures Cut(full, limit) == Cut(full, larger) == full
    ensures var x, y := ImpactsFor(stored, fromKey, toKey, full, depth, limit),
            ImpactsFor(stored, fromKey, toKey, full, depth, larger);
            |x| == |y| == |Seeds(fromKey, toKey, full)| && forall i :: 0 <= i < |x| ==> SameImpact(x[i], y[i])
  {
    UncutListsAgree(full, limit, larger);
    var seeds := SeedsInOrder(Seeds(fromKey, toKey, full));
    UncutSeedsAgree(seeds, limit, larger);
    UncutImpactsAgree(stored, depth, seeds, limit, larger);
  }

  /** The beginning of a list, as long as the limit allows. */
  ghost predicate Beginning<T>(cut: seq<T>, full: seq<T>, limit: nat) {
    cut <= full && |cut| == (if |full| > limit then limit else |full|)
  }

  /** Each reported list is the beginning of the full one, as long as the limit allows; and the diff says it
      is cut exactly when a list, the impacts or one of these fell short. */
  lemma CutListsArePrefixes(stored: map<string, Graph>, fromKey: string, toKey: string, depth: nat, limit: Budget,
                            d: Diff)
    requires IsDiff(stored, fromKey, toKey, depth, limit, d)
    ensures var full := FullOf(stored, fromKey, toKey);
            && Beginning(d.lists.addedNodes, full.addedNodes, limit)
               && Beginning(d.lists.removedNodes, full.removedNodes, limit)
            && Beginning(d.lists.changedNodes, full.changedNodes, limit)
            && Beginning(d.lists.addedEdges, full.addedEdges, limit)
               && Beginning(d.lists.removedEdges, full.removedEdges, limit)
    ensures d.truncated <==>
              || d.lists != FullOf(stored, fromKey, toKey) || |d.impacted| < d.counts.impactedSeeds
              || exists i :: 0 <= i < |d.impacted| && d.impacted[i].truncated
  {
    hide FullOf, Seeds, SeedsInOrder, ImpactOf;
    ImpactPerSeed(stored, depth, Take(SeedsInOrder(Seeds(fromKey, toKey, FullOf(stored, fromKey, toKey))), limit),
                  limit);
  }

  lemma {:induction false} ImpactPerSeed(stored: map<string, Graph>, depth: nat, seeds: seq<Seed>, budget: Budget)
    ensures |ImpactsOf(stored, depth, seeds, budget)| == |seeds|
  {
    hide ImpactOf;
    if seeds != [] {
      ImpactPerSeed(stored, depth, seeds[1..], Left(budget, |ImpactOf(stored, depth, seeds[0], budget).nodes|));
    }
  }

  /** Every seed is a node stored in the snapshot it names, so each impact lists that node's exact
      surroundings. */
  lemma SeedsAreStored(stored: map<string, Graph>, fromKey: string, toKey: string, seed: Seed)
    requires seed in Seeds(fromKey, toKey, FullOf(stored, fromKey, toKey))
    ensures seed.nodeKey in GraphIn(stored, seed.snapshotKey).nodes
  {
    hide Compare;
    var from, to := GraphIn(stored, fromKey), GraphIn(stored, toKey);
    var full := Compare(from, to);
    ListedRowsAreStored(from, to);
  }

  /** By snapshot, then by node. */
  ghost predicate Precedes(a: Seed, b: Seed) {
    TextLess(a.snapshotKey, b.snapshotKey) || (a.snapshotKey == b.snapshotKey && TextLess(a.nodeKey, b.nodeKey))
  }

  lemma PrecedesWhen(a: Seed, b: Seed)
    requires Less(SeedOrder(a), SeedOrder(b))
    ensures Precedes(a, b)
  {
    var x, y := [a.snapshotKey] + [a.nodeKey], [b.snapshotKey] + [b.nodeKey];
    assert SeedOrder(a).texts == x && SeedOrder(b).texts == y;
    assert x[1..] == [a.nodeKey] && y[1..] == [b.nodeKey];
    assert TextsLess(x, y);
    assert TextsLess(x[1..], y[1..]) == TextLess(a.nodeKey, b.nodeKey) by { ByTextLess(a.nodeKey, b.nodeKey); }
  }

  /** A diff analyses the nodes added to or changed in the newer snapshot there and the removed ones in the
      older, in order of their keys as far as the limit allows, each with what is left of it. */
  lemma DiffAnalysesInTurn(stored: map<string, Graph>, fromKey: string, toKey: string, depth: nat, limit: Budget,
                           d: Diff)
    requires IsDiff(stored, fromKey, toKey, depth, limit, d)
    ensures var seeds := Seeds(fromKey, toKey, FullOf(stored, fromKey, toKey));
            && |d.impacted| == (if |seeds| < limit then |seeds| else limit)
            && (forall i :: 0 <= i < |d.impacted| ==> d.impacted[i].seed in seeds)
            && (forall i, j :: 0 <= i < j < |d.impacted| ==> Precedes(d.impacted[i].seed, d.impacted[j].seed))
            && (forall seed, i :: seed in seeds && 0 <= i < |d.impacted| ==>
                  Precedes(d.impacted[i].seed, seed) || exists j :: 0 <= j <= i && d.impacted[j].seed == seed)
    ensures forall i :: 0 <= i < |d.impacted| ==> AnalysedAt(stored, depth, limit, d.impacted, i)
  {
    hide FullOf, Seeds, SeedsInOrder, Exceeds, Cut, AnyTruncated, AnalysedAt, SeedOrder, Precedes, ImpactsOf, GraphIn;
    var seeds := Seeds(fromKey, toKey, FullOf(stored, fromKey, toKey));
    var order := SeedsInOrder(seeds);
    var taken := Take(order, limit);
    forall seed | seed in taken ensures seed in seeds && seed.nodeKey in GraphIn(stored, seed.snapshotKey).nodes {
      SeedsAreStored(stored, fromKey, toKey, seed);
    }
    AnalysedInTurn(stored, depth, taken, limit, d.impacted);
    forall i, j | 0 <= i < j < |order| ensures Precedes(order[i], order[j]) { PrecedesWhen(order[i], order[j]); }
    forall seed, i | seed in seeds && 0 <= i < |d.impacted|
      ensures Precedes(d.impacted[i].seed, seed) || exists j :: 0 <= j <= i && d.impacted[j].seed == seed {
      var k :| 0 <= k < |order| && order[k] == seed;
      if k <= i { assert d.impacted[k].seed == seed; }
    }
  }

  lemma ComparableRowsAreStored(g: Graph)
    ensures forall k :: k in NodesByComparable(g) ==> NodesByComparable(g)[k].nodeKey in g.nodes
  {
    UpsertedHolds(StoredNodes(g), ComparableNode, NodesByComparable(g));
    forall n | n in StoredNodes(g) ensures n.nodeKey in g.nodes {
      assert n in g.nodes.Values;
      var k :| k in g.nodes && g.nodes[k] == n;
    }
  }

  lemma ListedRowsAreStored(from: Graph, to: Graph)
    ensures var c := Compare(from, to);
            && (forall n :: n in c.addedNodes ==> n.nodeKey in to.nodes)
               && (forall n :: n in c.removedNodes ==> n.nodeKey in from.nodes)
            && (forall n :: n in c.changedNodes ==> n.before.nodeKey in from.nodes && n.after.nodeKey in to.nodes)
  {
    ComparableRowsAreStored(from);
    ComparableRowsAreStored(to);
    var f, t := NodesByComparable(from), NodesByComparable(to);
    MissingHolds(f, t, Missing(f, t));
    MissingHolds(t, f, Missing(t, f));
    ChangedHolds(f, t, ChangedKeys(f, t));
    LookedUp(t, Missing(t, f));
    LookedUp(f, Missing(f, t));
    PairedUp(f, t, ChangedKeys(f, t));
  }

  lemma LookedUp(m: map<string, NodeRecord>, keys: seq<string>)
    requires forall k :: k in keys ==> k in m
    ensures forall n :: n in Lookup(m, keys) ==> exists k :: k in m && m[k] == n
  {
    var rows := Lookup(m, keys);
    forall i | 0 <= i < |rows| ensures exists k :: k in m && m[k] == rows[i] {
      assert keys[i] in keys && m[keys[i]] == rows[i];
    }
  }

  lemma PairedUp(f: map<string, NodeRecord>, t: map<string, NodeRecord>, keys: seq<string>)
    requires forall k :: k in keys ==> k in f && k in t
    ensures forall n :: n in Pairs(f, t, keys) ==>
            (exists k :: k in f && f[k] == n.before) && (exists k :: k in t && t[k] == n.after)
  {
    var rows := Pairs(f, t, keys);
    forall i | 0 <= i < |rows| ensures (exists k :: k in f && f[k] == rows[i].before)
        && (exists k :: k in t && t[k] == rows[i].after) {
      assert keys[i] in keys && f[keys[i]] == rows[i].before && t[keys[i]] == rows[i].after;
    }
  }
}
