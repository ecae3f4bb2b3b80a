/** Runs of index attempts against one store, with the database failing at any statement
    (graph_store.rs, graph_builder.rs). */
module IndexRuns {
  import opened Wrappers
  import opened Lists
  import opened SchemaModel
  import opened SnapshotRules
  import opened Certification
  import opened GraphModel
  import opened GraphStore
  import opened GraphBuilder

  datatype Attempt =
    | IndexPlain(snapshotKey: string, capturedAt: int, snapshot: SchemaSnapshot)
    | IndexCertified(snapshotKey: string, capturedAt: int, certified: CertifiedSchemaSnapshot)

  /** What an attempt is to leave in the store. */
  function GraphOfAttempt(a: Attempt): Rows {
    match a
    case IndexPlain(key, _, snapshot) => GraphOf(key, CanonicalSchemaSnapshot(snapshot, NoMetadata))
    case IndexCertified(key, _, certified) => GraphOf(key, certified.snapshot)
  }

  function RecordOfAttempt(a: Attempt): SnapshotRecord {
    match a
    case IndexPlain(key, at, snapshot) => RecordOf(key, at, snapshot, Legacy(snapshot))
    case IndexCertified(key, at, certified) => RecordOf(key, at, certified.snapshot.schema,
                                                        GraphStore.Versioned(certified))
  }

  /** The attempts that succeed when the database does not fail. */
  ghost predicate Acceptable(a: Attempt) {
    match a
    case IndexPlain(_, _, snapshot) => WellFormed(snapshot)
    case IndexCertified(_, _, certified) => Verified(certified) && Projects(certified.snapshot)
  }

  /** What the store has under a snapshot key: its record, if any, and its rows. */
  datatype Holding = Holding(record: Option<SnapshotRecord>, graph: Rows)

  function Held(t: Tables, key: string): Holding {
    Holding(if key in t.snapshots then Some(t.snapshots[key]) else None, RowsOf(t, key))
  }

  datatype Write = Write(key: string, value: Holding)

  /** What an attempt with a given outcome writes. */
  function WriteOf(a: Attempt, ok: bool): Option<Write> {
    if ok then Some(Write(a.snapshotKey, Holding(Some(RecordOfAttempt(a)), GraphOfAttempt(a)))) else None
  }

  function Writes(attempts: seq<Attempt>, outcomes: seq<bool>): (r: seq<Option<Write>>)
    requires |outcomes| == |attempts|
    ensures |r| == |attempts|
  {
    seq(|attempts|, i requires 0 <= i < |attempts| => WriteOf(attempts[i], outcomes[i]))
  }

  /** What is held for a key after some writes: the last one decides. */
  function HeldAfter(start: Holding, writes: seq<Option<Write>>, key: string): Holding {
    if writes == [] then start
    else
      var last := writes[|writes| - 1];
      if last.Some? && last.value.key == key then last.value.value else HeldAfter(start, writes[..|writes| - 1], key)
  }

  method Index(store: Store, a: Attempt) returns (ok: bool)
    requires store.Valid() && store.saved.None?
    modifies store
    ensures store.Valid() && store.saved.None? && old(store.clock) <= store.clock
    ensures ok ==> Acceptable(a) && Replaced(old(store.Contents()), store.Contents(), a.snapshotKey, RecordOfAttempt(a),
                                             GraphOfAttempt(a))
    ensures !ok ==> store.Contents() == old(store.Contents())
    ensures store.Quiet(old(store.clock), store.clock) ==> (ok <==> Acceptable(a))
  {
    match a {
      case IndexPlain(key, at, snapshot) =>
        var r := InsertSchemaSnapshotGraph(store, key, at, snapshot);
        ok := r.Ok?;
      case IndexCertified(key, at, certified) =>
        var r := InsertCertifiedSchemaSnapshotGraph(store, key, at, certified);
        ok := r.Ok?;
    }
  }

  lemma HeldAfterAttempt(before: Tables, after: Tables, a: Attempt, ok: bool, key: string)
    requires if ok then Replaced(before, after, a.snapshotKey, RecordOfAttempt(a), GraphOfAttempt(a))
             else after == before
    ensures Held(after, key) == HeldAfter(Held(before, key), [WriteOf(a, ok)], key)
  {
    assert [WriteOf(a, ok)][..0] == [];
  }

  lemma {:induction false} HeldAfterMore(start: Holding, writes: seq<Option<Write>>, w: Option<Write>, key: string)
    ensures HeldAfter(start, writes + [w], key) == HeldAfter(HeldAfter(start, writes, key), [w], key)
  {
    assert (writes + [w])[..|writes|] == writes && [w][..0] == [];
  }

  lemma WritesLonger(attempts: seq<Attempt>, outcomes: seq<bool>, a: Attempt, ok: bool)
    requires |outcomes| == |attempts|
    ensures Writes(attempts + [a], outcomes + [ok]) == Writes(attempts, outcomes) + [WriteOf(a, ok)]
  {
  }

  /** Only acceptable attempts succeeded, and all of them unless the database failed. */
  ghost predicate Fair(attempts: seq<Attempt>, outcomes: seq<bool>, quiet: bool)
    requires |outcomes| == |attempts|
  {
    && (forall i :: 0 <= i < |attempts| && outcomes[i] ==> Acceptable(attempts[i]))
    && (quiet ==> forall i :: 0 <= i < |attempts| && Acceptable(attempts[i]) ==> outcomes[i])
  }

  lemma FairLonger(attempts: seq<Attempt>, outcomes: seq<bool>, a: Attempt, ok: bool, before: bool, after: bool)
    requires |outcomes| == |attempts| && Fair(attempts, outcomes, before)
    requires (ok ==> Acceptable(a)) && (after ==> before && (Acceptable(a) ==> ok))
    ensures Fair(attempts + [a], outcomes + [ok], after)
  {
    hide Acceptable;
  }

  /** The state of a run after some attempts. */
  ghost predicate Reached(start: Tables, now: Tables, attempts: seq<Attempt>, outcomes: seq<bool>, quiet: bool) {
    && |outcomes| == |attempts|
    && (forall key :: Held(now, key) == HeldAfter(Held(start, key), Writes(attempts, outcomes), key))
    && Fair(attempts, outcomes, quiet)
  }

  lemma ReachedNext(start: Tables, was: Tables, now: Tables, attempts: seq<Attempt>, outcomes: seq<bool>, a: Attempt,
                    ok: bool, before: bool, after: bool)
    requires Reached(start, was, attempts, outcomes, before)
    requires if ok then Replaced(was, now, a.snapshotKey, RecordOfAttempt(a), GraphOfAttempt(a)) else now == was
    requires (ok ==> Acceptable(a)) && (after ==> before && (Acceptable(a) ==> ok))
    ensures Reached(start, now, attempts + [a], outcomes + [ok], after)
  {
    FairLonger(attempts, outcomes, a, ok, before, after);
    WritesLonger(attempts, outcomes, a, ok);
    forall key ensures Held(now, key) == HeldAfter(Held(start, key), Writes(attempts + [a], outcomes + [ok]), key) {
      HeldAfterAttempt(was, now, a, ok, key);
      HeldAfterMore(Held(start, key), Writes(attempts, outcomes), WriteOf(a, ok), key);
    }
  }

  /** One attempt extends the run by one write. */
  method IndexNext(store: Store, ghost start: Tables, ghost since: nat, ghost before: seq<Attempt>,
                   ghost outcomes: seq<bool>, a: Attempt)
    returns (ok: bool)
    requires store.Valid() && store.saved.None? && since <= store.clock
    requires Reached(start, store.Contents(), before, outcomes, store.Quiet(since, store.clock))
    modifies store
    ensures store.Valid() && store.saved.None? && since <= store.clock
    ensures Reached(start, store.Contents(), before + [a], outcomes + [ok], store.Quiet(since, store.clock))
  {
    ghost var was, quiet := store.Contents(), store.Quiet(since, store.clock);
    ok := Index(store, a);
    ReachedNext(start, was, store.Contents(), before, outcomes, a, ok, quiet, store.Quiet(since, store.clock));
  }

  /** Over any run, whatever statements fail, every snapshot key holds the record and exactly the graph
      of its last successful attempt, keys without one hold what they held, and the store stays
      consistent; only acceptable attempts succeed, and all of them if no statement fails. */
  method RunAttempts(store: Store, attempts: seq<Attempt>) returns (outcomes: seq<bool>)
    requires store.Valid() && store.saved.None?
    modifies store
    ensures store.Valid() && store.saved.None? && |outcomes| == |attempts|
    ensures forall key ::
              Held(store.Contents(), key)
              == HeldAfter(Held(old(store.Contents()), key), Writes(attempts, outcomes), key)
    ensures Fair(attempts, outcomes, store.Quiet(old(store.clock), store.clock))
  {
    outcomes := [];
    ghost var start, since := store.Contents(), store.clock;
    for i := 0 to |attempts|
      invariant store.Valid() && store.saved.None? && since <= store.clock
      invariant Reached(start, store.Contents(), attempts[..i], outcomes, store.Quiet(since, store.clock))
    {
      var ok := IndexNext(store, start, since, attempts[..i], outcomes, attempts[i]);
      PrefixLast(attempts, i);
      outcomes := outcomes + [ok];
    }
    WholePrefix(attempts);
  }

  /** No generation survives a later one: after a success and any failures that follow it, only what
      that attempt wrote is held for its key. */
  lemma LastSuccessDecides(start: Holding, attempts: seq<Attempt>, outcomes: seq<bool>, last: nat)
    requires |outcomes| == |attempts| && last < |attempts| && outcomes[last]
    requires forall i :: last < i < |attempts| && attempts[i].snapshotKey == attempts[last].snapshotKey ==> !outcomes[i]
    ensures HeldAfter(start, Writes(attempts, outcomes), attempts[last].snapshotKey)
         == Holding(Some(RecordOfAttempt(attempts[last])), GraphOfAttempt(attempts[last]))
  {
    var writes := Writes(attempts, outcomes);
    assert writes[last] == WriteOf(attempts[last], true);
    forall i | last < i < |writes| ensures writes[i].Some? ==> writes[i].value.key != attempts[last].snapshotKey {
      assert writes[i] == WriteOf(attempts[i], outcomes[i]);
    }
    LastWriteDecides(start, writes, last);
  }

  lemma {:induction false} LastWriteDecides(start: Holding, writes: seq<Option<Write>>, last: nat)
    requires last < |writes| && writes[last].Some?
    requires forall i :: last < i < |writes| && writes[i].Some? ==> writes[i].value.key != writes[last].value.key
    ensures HeldAfter(start, writes, writes[last].value.key) == writes[last].value.value
    decreases |writes|
  {
    if last < |writes| - 1 { LastWriteDecides(start, writes[..|writes| - 1], last); }
  }

  /** A key no attempt succeeded for holds what it held before the run. */
  lemma WithoutSuccessNothingChanges(start: Holding, attempts: seq<Attempt>, outcomes: seq<bool>, key: string)
    requires |outcomes| == |attempts| && forall i :: 0 <= i < |attempts| && attempts[i].snapshotKey == key ==>
             !outcomes[i]
    ensures HeldAfter(start, Writes(attempts, outcomes), key) == start
  {
    var writes := Writes(attempts, outcomes);
    forall i | 0 <= i < |writes| ensures writes[i].Some? ==> writes[i].value.key != key {
      assert writes[i] == WriteOf(attempts[i], outcomes[i]);
    }
    OtherWritesIgnored(start, writes, key);
  }

  lemma {:induction false} OtherWritesIgnored(start: Holding, writes: seq<Option<Write>>, key: string)
    requires forall i :: 0 <= i < |writes| && writes[i].Some? ==> writes[i].value.key != key
    ensures HeldAfter(start, writes, key) == start
  {
    if writes != [] { OtherWritesIgnored(start, writes[..|writes| - 1], key); }
  }
}
