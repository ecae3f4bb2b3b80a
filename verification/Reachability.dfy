/** Distances in a directed graph, defined without any traversal. */
module Reachability {

  /** For each node, the nodes one edge away. */
  type Adjacency = map<string, set<string>>

  function Next(adjacent: Adjacency, node: string): set<string> {
    if node in adjacent then adjacent[node] else {}
  }

  /** The nodes at most `n` edges away from the start. */
  function Ball(adjacent: Adjacency, start: string, n: nat): set<string> {
    if n == 0 then {start}
    else
      var inner := Ball(adjacent, start, n - 1);
      inner + set u, v | u in inner && v in Next(adjacent, u) :: v
  }

  ghost predicate AtDistance(adjacent: Adjacency, start: string, node: string, d: nat) {
    node in Ball(adjacent, start, d) && (d > 0 ==> node !in Ball(adjacent, start, d - 1))
  }

  lemma {:induction false} BallGrows(adjacent: Adjacency, start: string, m: nat, n: nat)
    requires m <= n
    ensures Ball(adjacent, start, m) <= Ball(adjacent, start, n)
    decreases n - m
  {
    if m < n { BallGrows(adjacent, start, m, n - 1); }
  }

  lemma DistanceUnique(adjacent: Adjacency, start: string, node: string, d: nat, e: nat)
    requires AtDistance(adjacent, start, node, d) && AtDistance(adjacent, start, node, e)
    ensures d == e
  {
    if d < e { BallGrows(adjacent, start, d, e - 1); }
    if e < d { BallGrows(adjacent, start, e, d - 1); }
  }

  /** A walk goes from node to adjacent node. */
  ghost predicate IsWalk(adjacent: Adjacency, walk: seq<string>) {
    forall i, j :: 0 <= i && j == i + 1 && j < |walk| ==> walk[j] in Next(adjacent, walk[i])
  }

  lemma {:induction false} WalkInBall(adjacent: Adjacency, walk: seq<string>, i: nat)
    requires IsWalk(adjacent, walk) && i < |walk|
    ensures walk[i] in Ball(adjacent, walk[0], i)
  {
    if i > 0 {
      WalkInBall(adjacent, walk, i - 1);
      assert walk[i] in Next(adjacent, walk[i - 1]);
    }
  }

  lemma {:induction false} BallHasWalk(adjacent: Adjacency, start: string, n: nat, end: string)
    returns (walk: seq<string>)
    requires end in Ball(adjacent, start, n)
    ensures 0 < |walk| <= n + 1 && walk[0] == start && walk[|walk| - 1] == end && IsWalk(adjacent, walk)
  {
    if n == 0 {
      walk := [start];
    } else if end in Ball(adjacent, start, n - 1) {
      walk := BallHasWalk(adjacent, start, n - 1, end);
    } else {
      var u :| u in Ball(adjacent, start, n - 1) && end in Next(adjacent, u);
      var before := BallHasWalk(adjacent, start, n - 1, u);
      walk := before + [end];
    }
  }

  /** Being in the ball of radius `n` is being the end of a walk of at most `n` edges. */
  lemma BallIsWalks(adjacent: Adjacency, start: string, n: nat, end: string)
    ensures end in Ball(adjacent, start, n)
       <==> exists walk :: 0 < |walk| <= n + 1 && walk[0] == start && walk[|walk| - 1] == end && IsWalk(adjacent, walk)
  {
    if end in Ball(adjacent, start, n) {
      var walk := BallHasWalk(adjacent, start, n, end);
    }
    forall walk | 0 < |walk| <= n + 1 && walk[0] == start && walk[|walk| - 1] == end && IsWalk(adjacent, walk)
      ensures end in Ball(adjacent, start, n)
    {
      WalkInBall(adjacent, walk, |walk| - 1);
      BallGrows(adjacent, start, |walk| - 1, n);
    }
  }
}
