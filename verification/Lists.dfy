/** Lists: repeats, mapping, sums and flattening, and how they behave under reordering. */
module Lists {

  /** Sequences without repeats. */
  predicate NoDuplicates<T(==)>(s: seq<T>) { forall i, j :: 0 <= i < j < |s| ==> s[i] != s[j] }

  lemma NoDuplicatesPermuted<T>(a: seq<T>, b: seq<T>)
    requires multiset(a) == multiset(b)
    ensures NoDuplicates(a) <==> NoDuplicates(b)
  {
    NoDuplicatesCount(a);
    NoDuplicatesCount(b);
  }

  lemma {:induction false} NoDuplicatesCount<T>(a: seq<T>)
    ensures NoDuplicates(a) <==> forall x :: x in a ==> multiset(a)[x] == 1
  {
    if a != [] {
      NoDuplicatesCount(a[1..]);
      assert a == [a[0]] + a[1..];
      if a[0] in a[1..] {
        assert multiset(a)[a[0]] >= 2;
        var j :| 0 <= j < |a[1..]| && a[1..][j] == a[0];
        assert a[0] == a[j + 1];
      } else {
        assert NoDuplicates(a) <==> NoDuplicates(a[1..]) by {
          if NoDuplicates(a[1..]) {
            forall i, j | 0 <= i < j < |a| ensures a[i] != a[j] { assert a[j] == a[1..][j - 1]; }
          }
          if NoDuplicates(a) {
            forall i, j | 0 <= i < j < |a[1..]| ensures a[1..][i] != a[1..][j] { assert a[i + 1] != a[j + 1]; }
          }
        }
        forall x | x in a ensures multiset(a)[x] == if x == a[0] then 1 else multiset(a[1..])[x] {}
        assert forall x :: x in a[1..] ==> x in a && x != a[0];
      }
    }
  }

  lemma SameItemsOnce<C(!new)>(a: seq<C>, b: seq<C>)
    requires NoDuplicates(a) && NoDuplicates(b) && forall c :: c in a <==> c in b
    ensures multiset(a) == multiset(b)
  {
    NoDuplicatesCount(a);
    NoDuplicatesCount(b);
    forall c ensures multiset(a)[c] == multiset(b)[c] {
      if c !in a { assert c !in multiset(a) && c !in multiset(b); }
    }
  }

  function MapSeq<A, B>(f: A -> B, s: seq<A>): (r: seq<B>)
    ensures |r| == |s| && forall i :: 0 <= i < |s| ==> r[i] == f(s[i])
  {
    seq(|s|, i requires 0 <= i < |s| => f(s[i]))
  }

  function Without<T>(s: seq<T>, j: nat): (r: seq<T>)
    requires j < |s|
    ensures |r| == |s| - 1
  {
    s[..j] + s[j + 1..]
  }

  lemma WithoutOne<T>(s: seq<T>, j: nat)
    requires j < |s|
    ensures multiset(s) == multiset{s[j]} + multiset(Without(s, j))
  {
    assert s == s[..j] + [s[j]] + s[j + 1..];
  }

  /** Mapping forgets no multiplicity: permuted lists map to permuted lists. */
  lemma {:induction false} MapPermuted<A, B>(f: A -> B, a: seq<A>, b: seq<A>, fa: seq<B>, fb: seq<B>)
    requires multiset(a) == multiset(b)
    requires |fa| == |a| && forall i :: 0 <= i < |a| ==> fa[i] == f(a[i])
    requires |fb| == |b| && forall i :: 0 <= i < |b| ==> fb[i] == f(b[i])
    ensures multiset(fa) == multiset(fb)
    decreases |a|
  {
    assert |multiset(a)| == |multiset(b)|;
    if a != [] {
      assert a[0] in multiset(b);
      var j :| 0 <= j < |b| && b[j] == a[0];
      WithoutOne(a, 0);
      WithoutOne(b, j);
      WithoutOne(fa, 0);
      WithoutOne(fb, j);
      assert multiset(Without(a, 0)) == multiset(a) - multiset{a[0]} == multiset(Without(b, j));
      MapPermuted(f, Without(a, 0), Without(b, j), Without(fa, 0), Without(fb, j));
    }
  }

  lemma SameElements<T>(a: seq<T>, b: seq<T>)
    requires multiset(a) == multiset(b)
    ensures forall x :: x in a <==> x in b
  {
    forall x ensures x in a <==> x in b { assert x in multiset(a) <==> x in multiset(b); }
  }

  // --------------------------------------------------------------------- sums

  function SumOf<C>(items: seq<C>, f: C -> nat): nat {
    if items == [] then 0 else f(items[0]) + SumOf(items[1..], f)
  }

  lemma {:induction false} SumOfSame<C>(items: seq<C>, f: C -> nat, g: C -> nat)
    requires forall c :: c in items ==> f(c) == g(c)
    ensures SumOf(items, f) == SumOf(items, g)
  {
    if items != [] { SumOfSame(items[1..], f, g); }
  }

  lemma {:induction false} SumOfJoined<C>(a: seq<C>, b: seq<C>, f: C -> nat)
    ensures SumOf(a + b, f) == SumOf(a, f) + SumOf(b, f)
  {
    if a == [] {
      assert a + b == b;
    } else {
      assert (a + b)[1..] == a[1..] + b;
      SumOfJoined(a[1..], b, f);
    }
  }

  /** A sum over distinct items depends only on which items they are. */
  lemma {:induction false} SumOfPermuted<C>(a: seq<C>, b: seq<C>, f: C -> nat)
    requires multiset(a) == multiset(b)
    ensures SumOf(a, f) == SumOf(b, f)
    decreases |a|
  {
    assert |multiset(a)| == |multiset(b)|;
    if a != [] {
      assert a[0] in multiset(b);
      var j :| 0 <= j < |b| && b[j] == a[0];
      WithoutOne(a, 0);
      WithoutOne(b, j);
      assert multiset(Without(a, 0)) == multiset(a) - multiset{a[0]} == multiset(Without(b, j));
      SumOfPermuted(Without(a, 0), Without(b, j), f);
      SumWithout(a, 0, f);
      SumWithout(b, j, f);
    }
  }

  lemma SplitAt<T>(s: seq<T>, j: nat)
    requires j < |s|
    ensures s == s[..j] + ([s[j]] + s[j + 1..])
  {
    assert s == s[..j] + s[j..];
    assert s[j..] == [s[j]] + s[j + 1..];
  }

  lemma SumWithout<C>(s: seq<C>, j: nat, f: C -> nat)
    requires j < |s|
    ensures SumOf(s, f) == f(s[j]) + SumOf(Without(s, j), f)
  {
    SplitAt(s, j);
    SumOfInserted(s[..j], s[j], s[j + 1..], f);
  }

  lemma SumOfInserted<C>(before: seq<C>, c: C, after: seq<C>, f: C -> nat)
    ensures SumOf(before + ([c] + after), f) == f(c) + SumOf(before + after, f)
  {
    SumOfJoined(before, [c] + after, f);
    SumOfCons(c, after, f);
    SumOfJoined(before, after, f);
  }

  lemma {:induction false} SumOfZero<C>(items: seq<C>, f: C -> nat)
    requires forall c :: c in items ==> f(c) == 0
    ensures SumOf(items, f) == 0
  {
    if items != [] { SumOfZero(items[1..], f); }
  }

  lemma SumOfCons<C>(c: C, rest: seq<C>, f: C -> nat)
    ensures SumOf([c] + rest, f) == f(c) + SumOf(rest, f)
  {
    assert ([c] + rest)[1..] == rest;
  }

  lemma {:induction false} SumOfLast<T>(items: seq<T>, last: T, size: T -> nat)
    ensures SumOf(items + [last], size) == SumOf(items, size) + size(last)
  {
    if items == [] {
      assert [last][1..] == [];
    } else {
      assert (items + [last])[1..] == items[1..] + [last];
      SumOfLast(items[1..], last, size);
    }
  }

  /** A sum of sums, item by item. */
  lemma {:induction false} SumOfAdds<T>(items: seq<T>, f: T -> nat, g: T -> nat, h: T -> nat)
    requires forall x :: x in items ==> f(x) == g(x) + h(x)
    ensures SumOf(items, f) == SumOf(items, g) + SumOf(items, h)
  {
    if items != [] { SumOfAdds(items[1..], f, g, h); }
  }

  lemma {:induction false} SumOfOnes<T>(items: seq<T>, f: T -> nat)
    requires forall x :: x in items ==> f(x) == 1
    ensures SumOf(items, f) == |items|
  {
    if items != [] { SumOfOnes(items[1..], f); }
  }

  // --------------------------------------------------------------- flattening

  /** The lists an item stands for, one after another. */
  function FlatMap<T, U>(items: seq<T>, f: T -> seq<U>): seq<U> {
    if items == [] then [] else f(items[0]) + FlatMap(items[1..], f)
  }

  lemma {:induction false} FlatMapFrom<T, U>(items: seq<T>, f: T -> seq<U>, u: U) returns (x: T)
    requires u in FlatMap(items, f)
    ensures x in items && u in f(x)
  {
    if u in f(items[0]) { x := items[0]; } else { x := FlatMapFrom(items[1..], f, u); }
  }

  lemma {:induction false} FlatMapInto<T, U>(items: seq<T>, f: T -> seq<U>, x: T, u: U)
    requires x in items && u in f(x)
    ensures u in FlatMap(items, f)
  {
    if x != items[0] { FlatMapInto(items[1..], f, x, u); }
  }

  lemma {:induction false} FlatMapCount<T, U>(items: seq<T>, f: T -> seq<U>, size: T -> nat)
    requires forall x :: x in items ==> |f(x)| == size(x)
    ensures |FlatMap(items, f)| == SumOf(items, size)
  {
    if items != [] { FlatMapCount(items[1..], f, size); }
  }

  lemma {:induction false} JoinedDistinct<T>(a: seq<T>, b: seq<T>)
    requires NoDuplicates(a) && NoDuplicates(b) && forall x :: x in a ==> x !in b
    ensures NoDuplicates(a + b)
  {
    forall i, j | 0 <= i < j < |a + b| ensures (a + b)[i] != (a + b)[j] {
      if i < |a| <= j { assert a[i] in a && b[j - |a|] in b; }
    }
  }

  /** Lists that show which item they came from stay free of repeats when flattened. */
  lemma {:induction false} FlatMapNoDuplicates<T, U, M>(items: seq<T>, f: T -> seq<U>, mark: T -> M, owner: U -> M)
    requires NoDuplicates(MapSeq(mark, items))
    requires forall x :: x in items ==> NoDuplicates(f(x))
    requires forall x, u :: x in items && u in f(x) ==> owner(u) == mark(x)
    ensures NoDuplicates(FlatMap(items, f))
  {
    if items != [] {
      var rest := items[1..];
      assert NoDuplicates(MapSeq(mark, rest)) by {
        forall i, j | 0 <= i < j < |rest| ensures MapSeq(mark, rest)[i] != MapSeq(mark, rest)[j] {
          assert MapSeq(mark, items)[i + 1] != MapSeq(mark, items)[j + 1];
        }
      }
      FlatMapNoDuplicates(rest, f, mark, owner);
      forall u | u in FlatMap(rest, f) ensures owner(u) != mark(items[0]) {
        var y := FlatMapFrom(rest, f, u);
        var j :| 0 <= j < |rest| && rest[j] == y;
        assert items[j + 1] == y;
        assert MapSeq(mark, items)[0] != MapSeq(mark, items)[j + 1];
      }
      JoinedDistinct(f(items[0]), FlatMap(rest, f));
    }
  }

  // ------------------------------------------------------------------- tables

  /** What a table holds after upserting rows one after another under their keys. */
  function Upserted<K(==), R>(rows: seq<R>, key: R -> K): map<K, R> {
    if rows == [] then map[]
    else
      var last := rows[|rows| - 1];
      Upserted(rows[..|rows| - 1], key)[key(last) := last]
  }

  lemma UpsertedLast<K, R>(rows: seq<R>, last: R, key: R -> K)
    ensures Upserted(rows + [last], key) == Upserted(rows, key)[key(last) := last]
  {
    assert (rows + [last])[..|rows + [last]| - 1] == rows;
  }

  lemma MapSeqLast<A, B>(f: A -> B, s: seq<A>, last: A)
    ensures MapSeq(f, s + [last]) == MapSeq(f, s) + [f(last)]
  {
  }

  lemma MapUpdateSize<K, V>(m: map<K, V>, k: K, v: V)
    ensures |m[k := v]| == |m| + (if k in m then 0 else 1)
  {
    var n := m[k := v];
    assert n.Keys == m.Keys + {k};
    assert |n| == |n.Keys| && |m| == |m.Keys|;
  }

  lemma NoDuplicatesLast<T>(s: seq<T>, last: T)
    ensures NoDuplicates(s + [last]) <==> NoDuplicates(s) && last !in s
  {
    var t := s + [last];
    if NoDuplicates(t) {
      forall i, j | 0 <= i < j < |s| ensures s[i] != s[j] { assert t[i] != t[j]; }
      forall i | 0 <= i < |s| ensures s[i] != last { assert t[i] != t[|s|]; }
    }
  }

  /** The table holds exactly the keys of its rows, and a row of each. */
  lemma {:induction false} UpsertedHolds<K, R>(rows: seq<R>, key: R -> K, table: map<K, R>)
    requires table == Upserted(rows, key)
    ensures forall k :: k in table <==> k in MapSeq(key, rows)
    ensures forall k :: k in table ==> table[k] in rows && key(table[k]) == k
    ensures forall r :: r in rows ==> key(r) in table
  {
    if rows != [] {
      var init, last := rows[..|rows| - 1], rows[|rows| - 1];
      assert rows == init + [last];
      UpsertedHolds(init, key, Upserted(init, key));
      MapSeqLast(key, init, last);
    }
  }

  /** It has as many rows as were written exactly when no two had the same key. */
  lemma {:induction false} UpsertedSize<K, R>(rows: seq<R>, key: R -> K, table: map<K, R>)
    requires table == Upserted(rows, key)
    ensures |table| <= |rows|
    ensures |table| == |rows| <==> NoDuplicates(MapSeq(key, rows))
  {
    if rows != [] {
      var init, last := rows[..|rows| - 1], rows[|rows| - 1];
      var rest := Upserted(init, key);
      assert rows == init + [last];
      UpsertedSize(init, key, rest);
      UpsertedHolds(init, key, rest);
      MapSeqLast(key, init, last);
      NoDuplicatesLast(MapSeq(key, init), key(last));
      MapUpdateSize(rest, key(last), last);
    }
  }

  lemma UpsertedFind<K, R>(rows: seq<R>, key: R -> K, table: map<K, R>, r: R)
    requires table == Upserted(rows, key) && NoDuplicates(MapSeq(key, rows)) && r in rows
    ensures key(r) in table && table[key(r)] == r
  {
    UpsertedHolds(rows, key, table);
    var keys := MapSeq(key, rows);
    var i :| 0 <= i < |rows| && rows[i] == r;
    assert keys[i] == key(r);
    var k := key(r);
    var j :| 0 <= j < |rows| && rows[j] == table[k];
    assert keys[j] == k;
  }

  lemma PrefixLast<T>(s: seq<T>, i: nat)
    requires i < |s|
    ensures s[..i + 1] == s[..i] + [s[i]]
  {
  }

  lemma WholePrefix<T>(s: seq<T>)
    ensures s[..|s|] == s
  {
  }
}
