/** Orders and sorting shared by the whole model: the byte order of text, the composite keys the
    program sorts by, the database's ORDER BY on a set of rows, Rust's stable sort and `dedup`. */
module Ordering {

  /** What a collection is sorted by: a rank, then texts compared one by one, then an ordinal.
      A sort by one text uses rank 0 and ordinal 0; a sort by one number uses only the rank. */
  datatype SortKey = SortKey(rank: int, texts: seq<string>, ordinal: int)

  function ByText(text: string): SortKey { SortKey(0, [text], 0) }

  // ---------------------------------------------------------------- orders

  predicate TextLess(a: string, b: string) {
    && |b| > 0
    && (|a| == 0 || a[0] < b[0] || (a[0] == b[0] && TextLess(a[1..], b[1..])))
  }

  predicate TextsLess(a: seq<string>, b: seq<string>) {
    && |b| > 0
    && (|a| == 0 || TextLess(a[0], b[0]) || (a[0] == b[0] && TextsLess(a[1..], b[1..])))
  }

  predicate Less(a: SortKey, b: SortKey) {
    || a.rank < b.rank
    || (a.rank == b.rank && TextsLess(a.texts, b.texts))
    || (a.rank == b.rank && a.texts == b.texts && a.ordinal < b.ordinal)
  }

  lemma {:induction false} TextLessTotal(a: string, b: string)
    ensures TextLess(a, b) || a == b || TextLess(b, a)
    ensures !(TextLess(a, b) && TextLess(b, a))
    ensures a == b ==> !TextLess(a, b)
  {
    if |a| > 0 && |b| > 0 {
      TextLessTotal(a[1..], b[1..]);
      if a[0] == b[0] && a[1..] == b[1..] {
        assert a == [a[0]] + a[1..] == b;
      }
    }
  }

  /** The texts agree up to a position where the first ends or has the smaller character. */
  ghost predicate SmallerAt(a: string, b: string, i: nat) {
    i <= |a| && i < |b| && a[..i] == b[..i] && (i == |a| || a[i] < b[i])
  }

  lemma SmallerStart(a: string, b: string, i: nat)
    requires SmallerAt(a, b, i)
    ensures i == 0 || (|a| > 0 && a[0] == b[0])
  {
    if i > 0 { assert a[..i][0] == b[..i][0]; }
  }

  /** The order of a byte-wise comparison: decided at the first place where the texts differ. */
  lemma {:induction false} TextLessWhen(a: string, b: string)
    ensures TextLess(a, b) <==> exists i: nat :: SmallerAt(a, b, i)
  {
    if |b| > 0 && |a| > 0 && a[0] == b[0] {
      TextLessWhen(a[1..], b[1..]);
      if TextLess(a[1..], b[1..]) {
        var i: nat :| SmallerAt(a[1..], b[1..], i);
        assert a[..i + 1] == [a[0]] + a[1..][..i] && b[..i + 1] == [b[0]] + b[1..][..i];
        assert SmallerAt(a, b, i + 1);
      }
      if i: nat :| SmallerAt(a, b, i) {
        assert i > 0 && a[1..][..i - 1] == a[..i][1..] && b[1..][..i - 1] == b[..i][1..];
        assert SmallerAt(a[1..], b[1..], i - 1);
      }
    } else {
      assert TextLess(a, b) ==> SmallerAt(a, b, 0);
      forall i: nat | SmallerAt(a, b, i) ensures i == 0 { SmallerStart(a, b, i); }
    }
  }

  lemma {:induction false} TextLessTransitive(a: string, b: string, c: string)
    requires TextLess(a, b) && TextLess(b, c)
    ensures TextLess(a, c)
  {
    if |a| > 0 && a[0] == b[0] == c[0] {
      TextLessTransitive(a[1..], b[1..], c[1..]);
    }
  }

  /** Texts with a common prefix compare as their remainders do. */
  lemma {:induction false} TextLessAfterPrefix(p: string, a: string, b: string)
    ensures TextLess(p + a, p + b) == TextLess(a, b)
  {
    if p == [] {
      assert p + a == a && p + b == b;
    } else {
      assert (p + a)[1..] == p[1..] + a && (p + b)[1..] == p[1..] + b;
      TextLessAfterPrefix(p[1..], a, b);
    }
  }

  lemma {:induction false} TextsLessTotal(a: seq<string>, b: seq<string>)
    ensures TextsLess(a, b) || a == b || TextsLess(b, a)
    ensures !(TextsLess(a, b) && TextsLess(b, a))
    ensures a == b ==> !TextsLess(a, b)
  {
    if |a| > 0 && |b| > 0 {
      TextLessTotal(a[0], b[0]);
      TextsLessTotal(a[1..], b[1..]);
      if a[0] == b[0] && a[1..] == b[1..] {
        assert a == [a[0]] + a[1..] == b;
      }
    }
  }

  lemma {:induction false} TextsLessTransitive(a: seq<string>, b: seq<string>, c: seq<string>)
    requires TextsLess(a, b) && TextsLess(b, c)
    ensures TextsLess(a, c)
  {
    if |a| > 0 {
      if TextLess(a[0], b[0]) && TextLess(b[0], c[0]) {
        TextLessTransitive(a[0], b[0], c[0]);
      } else if a[0] == b[0] == c[0] {
        TextLessTotal(a[0], b[0]);
        TextsLessTransitive(a[1..], b[1..], c[1..]);
      }
    }
  }

  lemma LessTotal(a: SortKey, b: SortKey)
    ensures Less(a, b) || a == b || Less(b, a)
    ensures !(Less(a, b) && Less(b, a))
    ensures !Less(a, a)
  {
    TextsLessTotal(a.texts, b.texts);
    TextsLessTotal(a.texts, a.texts);
  }

  lemma LessTransitive(a: SortKey, b: SortKey, c: SortKey)
    requires Less(a, b) && Less(b, c)
    ensures Less(a, c)
  {
    if TextsLess(a.texts, b.texts) && TextsLess(b.texts, c.texts) {
      TextsLessTransitive(a.texts, b.texts, c.texts);
    }
  }

  lemma ByTextLess(a: string, b: string)
    ensures Less(ByText(a), ByText(b)) == TextLess(a, b)
  {
    var x, y := [a], [b];
    assert x[1..] == [] && y[1..] == [];
    assert TextsLess(x, y) == (TextLess(a, b) || (a == b && TextsLess(x[1..], y[1..])));
  }

  // ------------------------------------------------------ sorted sequences

  ghost predicate StrictlySorted<T>(s: seq<T>, key: T -> SortKey) {
    forall i, j :: 0 <= i < j < |s| ==> Less(key(s[i]), key(s[j]))
  }

  ghost predicate Sorted<T>(s: seq<T>, key: T -> SortKey) {
    forall i, j :: 0 <= i < j < |s| ==> !Less(key(s[j]), key(s[i]))
  }

  /** No two of the rows share a sort key. */
  predicate Distinguishes<T(==)>(rows: set<T>, key: T -> SortKey) {
    forall x, y :: x in rows && y in rows && key(x) == key(y) ==> x == y
  }

  ghost function Elements<T>(s: seq<T>): set<T> { set x | x in s }

  /** A sequence is determined by its elements once it is strictly sorted. */
  lemma {:induction false} StrictlySortedUnique<T>(a: seq<T>, b: seq<T>, key: T -> SortKey)
    requires StrictlySorted(a, key) && StrictlySorted(b, key)
    requires forall x :: x in a <==> x in b
    ensures a == b
  {
    assert forall i :: 0 <= i < |b| ==> b[i] in a;
    assert forall i :: 0 <= i < |a| ==> a[i] in b;
    if a != [] && b != [] {
      assert a[0] in b;
      var i :| 0 <= i < |b| && b[i] == a[0];
      assert b[0] in a;
      var j :| 0 <= j < |a| && a[j] == b[0];
      LessTotal(key(a[0]), key(b[0]));
      assert i == 0 && j == 0;
      forall x ensures x in a[1..] <==> x in b[1..] {
        LessTotal(key(a[0]), key(a[0]));
        if x in a[1..] {
          assert x in b && x != b[0];
        }
        if x in b[1..] {
          assert x in a && x != a[0];
        }
      }
      StrictlySortedUnique(a[1..], b[1..], key);
      assert a == [a[0]] + a[1..] && b == [b[0]] + b[1..];
    }
  }

  lemma StrictlySortedLength<T>(s: seq<T>, key: T -> SortKey)
    requires StrictlySorted(s, key)
    ensures |Elements(s)| == |s|
    ensures forall i, j :: 0 <= i < j < |s| ==> s[i] != s[j]
  {
    forall i, j | 0 <= i < j < |s| ensures s[i] != s[j] { LessTotal(key(s[i]), key(s[j])); }
    DistinctLength(s);
  }

  lemma {:induction false} DistinctLength<T>(s: seq<T>)
    requires forall i, j :: 0 <= i < j < |s| ==> s[i] != s[j]
    ensures |Elements(s)| == |s|
  {
    if s == [] {
      assert Elements(s) == {};
    } else {
      DistinctLength(s[1..]);
      assert Elements(s) == {s[0]} + Elements(s[1..]);
      assert s[0] !in s[1..];
    }
  }

  // -------------------------------------------------------------- ORDER BY

  predicate IsLeast<T(==)>(x: T, rows: set<T>, key: T -> SortKey) {
    x in rows && forall y :: y in rows && y != x ==> Less(key(x), key(y))
  }

  lemma {:induction false} LeastExists<T>(rows: set<T>, key: T -> SortKey)
    requires rows != {} && Distinguishes(rows, key)
    ensures exists least :: IsLeast(least, rows, key)
    decreases |rows|
  {
    var x :| x in rows;
    var rest := rows - {x};
    if rest == {} {
      assert rows == {x};
      assert IsLeast(x, rows, key);
    } else {
      LeastExists(rest, key);
      var m :| IsLeast(m, rest, key);
      LessTotal(key(x), key(m));
      var least := if Less(key(x), key(m)) then x else m;
      forall y | y in rows && y != least ensures Less(key(least), key(y)) {
        if least == x && y != m { LessTransitive(key(x), key(m), key(y)); }
      }
      assert IsLeast(least, rows, key);
    }
  }

  lemma LeastUnique<T>(rows: set<T>, key: T -> SortKey)
    ensures forall x, y :: IsLeast(x, rows, key) && IsLeast(y, rows, key) ==> x == y
  {
    forall x, y | IsLeast(x, rows, key) && IsLeast(y, rows, key) ensures x == y { LessTotal(key(x), key(y)); }
  }

  /** The rows of a table in the order `ORDER BY key` returns them. */
  function OrderBy<T(==, !new)>(rows: set<T>, key: T -> SortKey): (r: seq<T>)
    requires Distinguishes(rows, key)
    ensures StrictlySorted(r, key)
    ensures forall x :: x in r <==> x in rows
    ensures |r| == |rows|
    decreases |rows|
  {
    if rows == {} then []
    else
      LeastExists(rows, key);
      LeastUnique(rows, key);
      var x :| IsLeast(x, rows, key);
      [x] + OrderBy(rows - {x}, key)
  }

  // ----------------------------------------------------------- stable sort

  function Insert<T>(x: T, s: seq<T>, key: T -> SortKey): seq<T> {
    if s == [] || !Less(key(s[0]), key(x)) then [x] + s else [s[0]] + Insert(x, s[1..], key)
  }

  /** Rust's `sort_by_key`: stable, so equal keys keep their order. */
  function StableSort<T>(s: seq<T>, key: T -> SortKey): seq<T> {
    if s == [] then [] else Insert(s[0], StableSort(s[1..], key), key)
  }

  lemma {:induction false} InsertElements<T>(x: T, s: seq<T>, key: T -> SortKey)
    ensures multiset(Insert(x, s, key)) == multiset([x] + s)
  {
    if s != [] && Less(key(s[0]), key(x)) {
      InsertElements(x, s[1..], key);
      assert s == [s[0]] + s[1..];
    }
  }

  lemma NotLessTransitive(a: SortKey, b: SortKey, c: SortKey)
    requires !Less(b, a) && !Less(c, b)
    ensures !Less(c, a)
  {
    LessTotal(a, b);
    LessTotal(b, c);
    if Less(c, a) {
      if Less(a, b) { LessTransitive(c, a, b); }
    }
  }

  lemma {:induction false} InsertKeeps<T>(x: T, s: seq<T>, key: T -> SortKey)
    requires Sorted(s, key)
    ensures Sorted(Insert(x, s, key), key)
    ensures multiset(Insert(x, s, key)) == multiset([x] + s)
  {
    InsertElements(x, s, key);
    if s == [] || !Less(key(s[0]), key(x)) {
      forall j | 0 <= j < |s| ensures !Less(key(s[j]), key(x)) {
        LessTotal(key(s[0]), key(s[0]));
        NotLessTransitive(key(x), key(s[0]), key(s[j]));
      }
    } else {
      InsertKeeps(x, s[1..], key);
      var t := Insert(x, s[1..], key);
      LessTotal(key(s[0]), key(x));
      forall j | 0 <= j < |t| ensures !Less(key(t[j]), key(s[0])) {
        assert t[j] in multiset([x] + s[1..]);
      }
    }
  }

  lemma {:induction false} StableSortKeeps<T>(s: seq<T>, key: T -> SortKey)
    ensures Sorted(StableSort(s, key), key)
    ensures multiset(StableSort(s, key)) == multiset(s)
    ensures |StableSort(s, key)| == |s|
  {
    if s != [] {
      StableSortKeeps(s[1..], key);
      InsertKeeps(s[0], StableSort(s[1..], key), key);
      assert s == [s[0]] + s[1..];
    }
    assert |multiset(StableSort(s, key))| == |multiset(s)|;
  }

  lemma StableSortElements<T>(s: seq<T>, key: T -> SortKey, r: seq<T>)
    requires r == StableSort(s, key)
    ensures forall x :: x in r <==> x in s
  {
    StableSortKeeps(s, key);
    forall x ensures x in r <==> x in s {
      assert x in multiset(r) <==> x in multiset(s);
    }
  }

  /** Sorting leaves a sorted sequence alone. */
  lemma {:induction false} StableSortOfSorted<T>(s: seq<T>, key: T -> SortKey)
    requires Sorted(s, key)
    ensures StableSort(s, key) == s
  {
    if s != [] {
      StableSortOfSorted(s[1..], key);
      assert s == [s[0]] + s[1..];
    }
  }

  ghost predicate DistinctKeys<T>(s: seq<T>, key: T -> SortKey) {
    forall i, j :: 0 <= i < j < |s| ==> key(s[i]) != key(s[j])
  }

  lemma SortedDistinct<T>(s: seq<T>, key: T -> SortKey)
    requires Sorted(s, key) && DistinctKeys(s, key)
    ensures StrictlySorted(s, key)
  {
    forall i, j | 0 <= i < j < |s| ensures Less(key(s[i]), key(s[j])) { LessTotal(key(s[i]), key(s[j])); }
  }

  lemma DistinctKeysPermuted<T>(a: seq<T>, b: seq<T>, key: T -> SortKey)
    requires multiset(a) == multiset(b) && DistinctKeys(a, key)
    ensures DistinctKeys(b, key)
  {
    forall i, j | 0 <= i < j < |b| ensures key(b[i]) != key(b[j]) {
      if key(b[i]) == key(b[j]) {
        assert b[i] in multiset(b) && b[j] in multiset(b);
        assert b[i] in multiset(a) && b[j] in multiset(a);
        var p :| 0 <= p < |a| && a[p] == b[i];
        var q :| 0 <= q < |a| && a[q] == b[j];
        assert p == q;
        TwiceInPrefix(b, i, j);
        OnceInDistinct(a, p, key);
      }
    }
  }

  lemma TwiceInPrefix<T>(b: seq<T>, i: nat, j: nat)
    requires i < j < |b| && b[i] == b[j]
    ensures multiset(b)[b[i]] >= 2
  {
    assert b == b[..j] + [b[j]] + b[j + 1..];
    assert b[..j][i] == b[i];
    assert b[i] in multiset(b[..j]);
  }

  lemma OnceInDistinct<T>(a: seq<T>, p: nat, key: T -> SortKey)
    requires p < |a| && DistinctKeys(a, key)
    ensures multiset(a)[a[p]] == 1
  {
    assert a == a[..p] + [a[p]] + a[p + 1..];
    assert a[p] !in a[..p] && a[p] !in a[p + 1..];
  }

  /** Sorting by a key that tells the items apart forgets the order they came in. */
  lemma StableSortCanonical<T>(a: seq<T>, b: seq<T>, key: T -> SortKey)
    requires multiset(a) == multiset(b) && DistinctKeys(a, key)
    ensures StableSort(a, key) == StableSort(b, key)
    ensures StrictlySorted(StableSort(a, key), key)
  {
    var x, y := StableSort(a, key), StableSort(b, key);
    StableSortKeeps(a, key);
    StableSortKeeps(b, key);
    DistinctKeysPermuted(a, x, key);
    DistinctKeysPermuted(a, y, key);
    SortedDistinct(x, key);
    SortedDistinct(y, key);
    forall e ensures e in x <==> e in y { assert e in multiset(x) <==> e in multiset(y); }
    StrictlySortedUnique(x, y, key);
  }

  // ----------------------------------------------------------------- dedup

  /** Rust's `dedup_by_key`: of neighbours with the same mark only the first stays. */
  function Dedup<T, M(==)>(s: seq<T>, mark: T -> M): seq<T>
    decreases |s|
  {
    if |s| < 2 then s
    else if mark(s[0]) == mark(s[1]) then Dedup([s[0]] + s[2..], mark)
    else [s[0]] + Dedup(s[1..], mark)
  }

  /** Removing repeats from a sorted list leaves its elements, each once, in order. */
  lemma {:induction false} DedupOfSorted<T, M>(s: seq<T>, key: T -> SortKey, mark: T -> M, r: seq<T>)
    requires Sorted(s, key) && r == Dedup(s, mark)
    requires forall x, y :: x in s && y in s && key(x) == key(y) ==> x == y
    requires forall x, y :: x in s && y in s && mark(x) == mark(y) ==> x == y
    ensures StrictlySorted(r, key)
    ensures forall x :: x in r <==> x in s
    ensures |s| > 0 ==> |r| > 0 && r[0] == s[0]
    decreases |s|
  {
    if |s| >= 2 {
      if mark(s[0]) == mark(s[1]) {
        var t := [s[0]] + s[2..];
        assert s[0] == s[1];
        assert s == [s[0], s[1]] + s[2..];
        assert Sorted(t, key) by { assert t == s[1..]; }
        DedupOfSorted(t, key, mark, r);
      } else {
        var rest := r[1..];
        DedupOfSorted(s[1..], key, mark, rest);
        assert s == [s[0]] + s[1..] && r == [s[0]] + rest;
        LessTotal(key(s[0]), key(s[1]));
        forall j | 0 <= j < |rest| ensures Less(key(s[0]), key(rest[j])) {
          if j > 0 { LessTransitive(key(s[0]), key(rest[0]), key(rest[j])); }
        }
      }
    }
  }

  lemma {:induction false} DedupOfStrict<T, M>(s: seq<T>, mark: T -> M)
    requires forall i, j :: 0 <= i < j < |s| ==> mark(s[i]) != mark(s[j])
    ensures Dedup(s, mark) == s
    decreases |s|
  {
    if |s| >= 2 {
      DedupOfStrict(s[1..], mark);
      assert s == [s[0]] + s[1..];
    }
  }

  // -------------------------------------------------------------- prefixes

  function Take<T>(s: seq<T>, n: nat): seq<T> { if n < |s| then s[..n] else s }

  lemma TakeLess<T>(s: seq<T>, a: nat, b: nat)
    requires a <= b
    ensures Take(s, a) <= Take(s, b)
    ensures |s| <= a ==> Take(s, a) == Take(s, b) == s
  {
  }

  /** An element stands in a smaller sorted list no later than in a larger one. */
  lemma {:induction false} RankInSuperset<T>(small: seq<T>, large: seq<T>, key: T -> SortKey, r: nat) returns (j: nat)
    requires StrictlySorted(small, key) && StrictlySorted(large, key)
    requires forall x :: x in small ==> x in large
    requires r < |small|
    ensures r <= j < |large| && large[j] == small[r]
  {
    assert small[r] in large;
    j :| 0 <= j < |large| && large[j] == small[r];
    if r > 0 {
      var before := RankInSuperset(small, large, key, r - 1);
      LessTotal(key(large[before]), key(large[j]));
      if j <= before { LessTotal(key(large[j]), key(large[before])); }
    }
  }

  /** A sorted sub-list that holds the first m elements starts with them. */
  lemma {:induction false} SharedPrefix<T>(sub: seq<T>, all: seq<T>, key: T -> SortKey, m: nat)
    requires StrictlySorted(sub, key) && StrictlySorted(all, key)
    requires forall x :: x in sub ==> x in all
    requires m <= |all| && forall x :: x in all[..m] ==> x in sub
    ensures m <= |sub| && sub[..m] == all[..m]
  {
    if m > 0 {
      forall x | x in all[..m - 1] ensures x in sub { assert x in all[..m]; }
      SharedPrefix(sub, all, key, m - 1);
      assert all[m - 1] in all[..m];
      var r :| 0 <= r < |sub| && sub[r] == all[m - 1];
      var j := RankInSuperset(sub, all, key, r);
      StrictlySortedLength(all, key);
      assert j == m - 1;
      assert forall t :: 0 <= t < m - 1 ==> sub[t] == sub[..m - 1][t] == all[..m - 1][t] == all[t];
      assert r == m - 1;
      assert sub[..m] == sub[..m - 1] + [sub[m - 1]];
      assert all[..m] == all[..m - 1] + [all[m - 1]];
    }
  }

  lemma SubsetCount<T>(a: set<T>, b: set<T>)
    requires a <= b
    ensures |a| <= |b|
  {
    assert b == a + (b - a);
  }

  /** Sorting and freeing of repeats leaves the elements of the list, each once, in order. */
  lemma SortDedup<T, M>(s: seq<T>, key: T -> SortKey, mark: T -> M, r: seq<T>)
    requires r == Dedup(StableSort(s, key), mark)
    requires forall x, y :: x in s && y in s && key(x) == key(y) ==> x == y
    requires forall x, y :: x in s && y in s && mark(x) == mark(y) ==> x == y
    ensures StrictlySorted(r, key)
    ensures forall x :: x in r <==> x in s
  {
    var sorted := StableSort(s, key);
    assert Sorted(sorted, key) by { StableSortKeeps(s, key); }
    StableSortElements(s, key, sorted);
    DedupOfSorted(sorted, key, mark, r);
  }

  /** Sorting, freeing of repeats and cutting a partial list that holds the first k + 1 of `all`
      gives the first k, and shows whether there are more. */
  lemma CutSort<T, M>(part: seq<T>, all: seq<T>, key: T -> SortKey, mark: T -> M, k: nat)
    requires StrictlySorted(all, key)
    requires forall x, y :: x in all && y in all && key(x) == key(y) ==> x == y
    requires forall x, y :: x in all && y in all && mark(x) == mark(y) ==> x == y
    requires forall x :: x in part ==> x in all
    requires forall j :: 0 <= j <= k && j < |all| ==> all[j] in part
    ensures var unique := Dedup(StableSort(part, key), mark);
            Take(unique, k) == Take(all, k) && (|unique| > k <==> |all| > k)
  {
    var unique := Dedup(StableSort(part, key), mark);
    SortDedup(part, key, mark, unique);
    CutUnique(unique, part, all, key, k);
  }

  lemma CutUnique<T>(unique: seq<T>, part: seq<T>, all: seq<T>, key: T -> SortKey, k: nat)
    requires StrictlySorted(unique, key) && StrictlySorted(all, key)
    requires forall x :: x in unique <==> x in part
    requires forall x :: x in part ==> x in all
    requires forall j :: 0 <= j <= k && j < |all| ==> all[j] in part
    ensures Take(unique, k) == Take(all, k) && (|unique| > k <==> |all| > k)
  {
    var m := if |all| > k then k + 1 else |all|;
    forall x | x in all[..m] ensures x in unique {
      var j :| 0 <= j < m && all[j] == x;
      assert all[j] in part;
    }
    SharedPrefix(unique, all, key, m);
    StrictlySortedLength(unique, key);
    StrictlySortedLength(all, key);
    SubsetCount(Elements(unique), Elements(all));
    if |all| > k {
      assert unique[..k] == unique[..m][..k] == all[..m][..k] == all[..k];
    } else {
      assert unique == unique[..m] && all[..m] == all;
    }
  }
}
