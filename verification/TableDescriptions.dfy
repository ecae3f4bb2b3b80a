/** What a table's description says, and how dependents are merged into it
    (crates/database-memory-cli/src/metadata.rs). */
module TableDescriptions {
  import opened Wrappers
  import opened Lists
  import opened Ordering
  import opened ObjectKeys
  import opened SchemaModel
  import opened Canonical
  import opened SchemaDiff

  datatype ForeignKeyDescription = ForeignKeyDescription(
    key: string, tableKey: string, name: string, table: string, columns: seq<string>, columnKeys: seq<string>,
    referencedTableKey: Option<string>, referencedTable: string, referencedColumns: seq<string>,
    referencedColumnKeys: seq<string>)

  datatype Dependent = Dependent(key: string, kind: string, name: string, relation: string, columnKeys: seq<string>)

  datatype TableDescription = TableDescription(
    snapshotKey: string, tableKey: string, tableName: string, columns: seq<ColumnObject>, primaryKey: seq<string>,
    constraints: seq<ConstraintObject>, outboundForeignKeys: seq<ForeignKeyDescription>,
    inboundForeignKeys: seq<ForeignKeyDescription>,
    indexes: seq<IndexObject>, dependents: seq<Dependent>)

  function KeyName(k: ObjectKey): string { match k.subObject case Some(name) => name case None => k.objectName }

  function NamesFromKeys(keys: seq<ObjectKey>): seq<string> { MapSeq(KeyName, keys) }

  function KeysAsStrings(keys: seq<ObjectKey>): seq<string> { MapSeq(Print, keys) }

  function ForeignKeyOf(c: ConstraintObject): ForeignKeyDescription {
    ForeignKeyDescription(
      Print(c.key), Print(c.tableKey), c.name, c.tableKey.objectName, NamesFromKeys(c.columns),
      KeysAsStrings(c.columns),
      (match c.referencedTableKey case Some(k) => Some(Print(k)) case None => None),
      (match c.referencedTableKey case Some(k) => k.objectName case None => []),
      NamesFromKeys(c.referencedColumns), KeysAsStrings(c.referencedColumns))
  }

  function ByOrdinal(c: ColumnObject): SortKey { SortKey(c.ordinalPosition, [], 0) }

  function ByForeignKeyName(f: ForeignKeyDescription): SortKey { ByText(f.name) }

  function ByIndexName(i: IndexObject): SortKey { ByText(i.name) }

  predicate IsForeignKeyRule(c: ConstraintObject) { c.kind == ForeignKeyRule }

  function Filter<T>(items: seq<T>, wanted: T -> bool): seq<T> {
    if items == [] then [] else (if wanted(items[0]) then [items[0]] else []) + Filter(items[1..], wanted)
  }

  /** The columns of the first primary key in a list of constraints. */
  function PrimaryKeyOf(constraints: seq<ConstraintObject>): seq<string> {
    if constraints == [] then []
    else if constraints[0].kind == PrimaryKeyRule then NamesFromKeys(constraints[0].columns)
    else PrimaryKeyOf(constraints[1..])
  }

  method FindPrimaryKey(constraints: seq<ConstraintObject>) returns (names: seq<string>)
    ensures names == PrimaryKeyOf(constraints)
  {
    assert constraints[0..] == constraints;
    for i := 0 to |constraints|
      invariant PrimaryKeyOf(constraints[i..]) == PrimaryKeyOf(constraints)
    {
      assert constraints[i..][1..] == constraints[i + 1..];
      if constraints[i].kind == PrimaryKeyRule { return NamesFromKeys(constraints[i].columns); }
    }
    return [];
  }

  /** A description made of the lists a table owns, in key order, and its merged dependents. */
  function DescriptionOf(snapshotKey: string, tableKey: string, tableName: string, columns: seq<ColumnObject>,
                         constraints: seq<ConstraintObject>,
                         inbound: seq<ConstraintObject>, indexes: seq<IndexObject>,
                         dependents: map<string, Dependent>): TableDescription
  {
    TableDescription(
      snapshotKey, tableKey, tableName, StableSort(columns, ByOrdinal), PrimaryKeyOf(constraints), constraints,
      StableSort(MapSeq(ForeignKeyOf, Filter(constraints, IsForeignKeyRule)), ByForeignKeyName),
      StableSort(MapSeq(ForeignKeyOf, inbound), ByForeignKeyName),
      StableSort(indexes, ByIndexName), Lookup(dependents, SortedKeys(dependents)))
  }

  // ----------------------------------------------------------------- merging

  /** One reason for an object to be listed: its description, and the column it names, if any. */
  datatype Mention = Mention(dependent: Dependent, column: Option<string>)

  /** `merge_dependent`. */
  function Merge(dependents: map<string, Dependent>, m: Mention): map<string, Dependent> {
    var entry := if m.dependent.key in dependents then dependents[m.dependent.key] else m.dependent;
    dependents[m.dependent.key := WithColumn(entry, m.column)]
  }

  function WithColumn(d: Dependent, column: Option<string>): Dependent {
    match column
    case Some(c) => if c in d.columnKeys then d else d.(columnKeys := StableSort(d.columnKeys + [c], ByText))
    case None => d
  }

  function MergeAll(mentions: seq<Mention>): map<string, Dependent> {
    if mentions == [] then map[] else Merge(MergeAll(mentions[..|mentions| - 1]), mentions[|mentions| - 1])
  }

  lemma MergeLast(mentions: seq<Mention>, last: Mention)
    ensures MergeAll(mentions + [last]) == Merge(MergeAll(mentions), last)
  {
    assert (mentions + [last])[..|mentions|] == mentions;
  }

  /** Mentions of the same object describe it alike, without columns of their own. */
  ghost predicate Coherent(mentions: seq<Mention>) {
    && (forall m :: m in mentions ==> m.dependent.columnKeys == [])
    && (forall m, n :: m in mentions && n in mentions && m.dependent.key == n.dependent.key ==>
        m.dependent == n.dependent)
  }

  /** The entry for a key: the object, with the columns mentioned for it, each once and in order. */
  ghost predicate Summarises(d: Dependent, mentions: seq<Mention>, key: string) {
    && d.key == key
    && (exists m :: m in mentions && m.dependent.key == key)
    && (forall m :: m in mentions && m.dependent.key == key ==> d.(columnKeys := []) == m.dependent)
    && StrictlySorted(d.columnKeys, ByText)
    && (forall c :: c in d.columnKeys <==> exists m :: m in mentions && m.dependent.key == key && m.column == Some(c))
  }

  lemma {:induction false} MergeAllSummarises(mentions: seq<Mention>, merged: map<string, Dependent>)
    requires Coherent(mentions) && merged == MergeAll(mentions)
    ensures forall k :: k in merged <==> exists m :: m in mentions && m.dependent.key == k
    ensures forall k :: k in merged ==> Summarises(merged[k], mentions, k)
  {
    if mentions != [] {
      var init, last := mentions[..|mentions| - 1], mentions[|mentions| - 1];
      assert mentions == init + [last];
      MergeAllSummarises(init, MergeAll(init));
      MergeStep(init, last, MergeAll(init));
    }
  }

  lemma MergeStep(init: seq<Mention>, last: Mention, before: map<string, Dependent>)
    requires Coherent(init + [last])
    requires forall k :: k in before <==> exists m :: m in init && m.dependent.key == k
    requires forall k :: k in before ==> Summarises(before[k], init, k)
    ensures var merged := Merge(before, last);
            && (forall k :: k in merged <==> exists m :: m in init + [last] && m.dependent.key == k)
            && (forall k :: k in merged ==> Summarises(merged[k], init + [last], k))
  {
    var merged, all, key := Merge(before, last), init + [last], last.dependent.key;
    assert last in all && forall m :: m in init ==> m in all;
    forall k ensures k in merged <==> exists m :: m in all && m.dependent.key == k {
      if m :| m in all && m.dependent.key == k { assert m in init || m == last; }
    }
    forall k | k in merged ensures Summarises(merged[k], all, k) {
      if k == key {
        var entry := if key in before then before[key] else last.dependent;
        EntrySummarises(init, last, entry, key in before);
      } else {
        assert merged[k] == before[k];
        assert Summarises(before[k], init, k);
        OtherKeySummarises(init, last, before[k], k);
      }
    }
  }

  lemma OtherKeySummarises(init: seq<Mention>, last: Mention, d: Dependent, k: string)
    requires Summarises(d, init, k) && last.dependent.key != k
    ensures Summarises(d, init + [last], k)
  {
    var all := init + [last];
    assert forall m :: m in all && m.dependent.key == k <==> m in init && m.dependent.key == k;
  }

  lemma EntrySummarises(init: seq<Mention>, last: Mention, entry: Dependent, known: bool)
    requires Coherent(init + [last])
    requires known ==> Summarises(entry, init, last.dependent.key)
    requires !known ==> entry == last.dependent && forall m :: m in init ==> m.dependent.key != last.dependent.key
    ensures Summarises(WithColumn(entry, last.column), init + [last], last.dependent.key)
  {
    var all, key := init + [last], last.dependent.key;
    assert last in all && forall m :: m in all <==> m in init || m == last;
    var d := WithColumn(entry, last.column);
    assert entry.(columnKeys := []) == last.dependent by {
      if known {
        var m :| m in init && m.dependent.key == key;
        assert m in all;
      }
    }
    ColumnsGrow(entry.columnKeys, last.column, d.columnKeys);
    forall c ensures c in d.columnKeys <==> exists m :: m in all && m.dependent.key == key && m.column == Some(c) {
      if c in d.columnKeys {
        if last.column != Some(c) {
          var m :| m in init && m.dependent.key == key && m.column == Some(c);
          assert m in all;
        }
      }
    }
  }

  lemma ByTextDistinct(a: string, b: string)
    ensures ByText(a) == ByText(b) ==> a == b
  {
    if ByText(a) == ByText(b) { ByTextInjective(a, b); }
  }

  lemma ColumnsGrow(keys: seq<string>, column: Option<string>, r: seq<string>)
    requires StrictlySorted(keys, ByText)
    requires r == match column case Some(c) => if c in keys then keys else StableSort(keys + [c], ByText)
    case None => keys
    ensures StrictlySorted(r, ByText)
    ensures forall c :: c in r <==> c in keys || column == Some(c)
  {
    if column.Some? && column.value !in keys {
      var longer := keys + [column.value];
      StableSortElements(longer, ByText, r);
      assert DistinctKeys(longer, ByText) by {
        forall i, j | 0 <= i < j < |longer| ensures ByText(longer[i]) != ByText(longer[j]) {
          if j < |keys| {
            LessTotal(ByText(keys[i]), ByText(keys[j]));
          } else {
            assert keys[i] in keys;
            ByTextDistinct(longer[i], longer[j]);
          }
        }
      }
      StableSortCanonical(longer, longer, ByText);
    }
  }

  /** Merging forgets the order and the repeats of the mentions. */
  lemma MergeAllCanonical(a: seq<Mention>, b: seq<Mention>)
    requires Coherent(a) && forall m :: m in a <==> m in b
    ensures MergeAll(a) == MergeAll(b)
  {
    assert Coherent(b);
    var x, y := MergeAll(a), MergeAll(b);
    MergeAllSummarises(a, x);
    MergeAllSummarises(b, y);
    forall k ensures k in x <==> k in y {
      if m :| m in a && m.dependent.key == k { assert m in b; }
      if m :| m in b && m.dependent.key == k { assert m in a; }
    }
    forall k | k in x ensures x[k] == y[k] { SummariesAgree(a, b, x[k], y[k], k); }
  }

  lemma SummariesAgree(a: seq<Mention>, b: seq<Mention>, d: Dependent, e: Dependent, key: string)
    requires (forall m :: m in a <==> m in b) && Summarises(d, a, key) && Summarises(e, b, key)
    ensures d == e
  {
    var m :| m in a && m.dependent.key == key;
    assert m in b && d.(columnKeys := []) == m.dependent == e.(columnKeys := []);
    forall c ensures c in d.columnKeys <==> c in e.columnKeys {
      if c in d.columnKeys {
        var n :| n in a && n.dependent.key == key && n.column == Some(c);
        assert n in b;
      }
      if c in e.columnKeys {
        var n :| n in b && n.dependent.key == key && n.column == Some(c);
        assert n in a;
      }
    }
    StrictlySortedUnique(d.columnKeys, e.columnKeys, ByText);
  }

  /** Merging more mentions into what is there. */
  function MergeInto(dependents: map<string, Dependent>, mentions: seq<Mention>): map<string, Dependent> {
    if mentions == [] then dependents
    else Merge(MergeInto(dependents, mentions[..|mentions| - 1]), mentions[|mentions| - 1])
  }

  lemma {:induction false} MergeAllJoined(a: seq<Mention>, b: seq<Mention>)
    ensures MergeAll(a + b) == MergeInto(MergeAll(a), b)
  {
    if b == [] {
      assert a + b == a;
    } else {
      var init, last := b[..|b| - 1], b[|b| - 1];
      assert a + b == (a + init) + [last];
      MergeAllJoined(a, init);
      MergeLast(a + init, last);
    }
  }

  lemma MergeIntoLast(dependents: map<string, Dependent>, mentions: seq<Mention>, last: Mention)
    ensures MergeInto(dependents, mentions + [last]) == Merge(MergeInto(dependents, mentions), last)
  {
    assert (mentions + [last])[..|mentions|] == mentions;
  }

  lemma {:induction false} FilterLast<T>(items: seq<T>, last: T, wanted: T -> bool)
    ensures Filter(items + [last], wanted) == Filter(items, wanted) + (if wanted(last) then [last] else [])
  {
    if items == [] {
      assert [last][1..] == [] && [] + [last] == [last];
    } else {
      assert (items + [last])[1..] == items[1..] + [last];
      FilterLast(items[1..], last, wanted);
    }
  }

  lemma {:induction false} FilterHolds<T(!new)>(items: seq<T>, wanted: T -> bool, r: seq<T>)
    requires r == Filter(items, wanted)
    ensures forall x :: x in r <==> x in items && wanted(x)
  {
    if items != [] { FilterHolds(items[1..], wanted, Filter(items[1..], wanted)); }
  }

  /** Filtering keeps the order of a sorted list. */
  lemma {:induction false} FilterSorted<T(!new)>(items: seq<T>, wanted: T -> bool, key: T -> SortKey, r: seq<T>)
    requires StrictlySorted(items, key) && r == Filter(items, wanted)
    ensures StrictlySorted(r, key)
  {
    if items != [] {
      var tail := items[1..];
      var rest := Filter(tail, wanted);
      FilterSorted(tail, wanted, key, rest);
      FilterHolds(tail, wanted, rest);
      AfterFirst(items, rest, key);
    }
  }

  lemma AfterFirst<T(!new)>(items: seq<T>, rest: seq<T>, key: T -> SortKey)
    requires items != [] && StrictlySorted(items, key) && forall x :: x in rest ==> x in items[1..]
    ensures forall j :: 0 <= j < |rest| ==> Less(key(items[0]), key(rest[j]))
  {
    forall j | 0 <= j < |rest| ensures Less(key(items[0]), key(rest[j])) {
      assert rest[j] in rest;
      var i :| 0 <= i < |items[1..]| && items[1..][i] == rest[j];
      assert items[i + 1] == rest[j];
    }
  }
}
