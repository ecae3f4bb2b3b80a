/** What a description of a table says, in terms of the objects the snapshot lists
    (crates/database-memory-cli/src/metadata.rs). */
module DescriptionContents {
  import opened Wrappers
  import opened Lists
  import opened Ordering
  import opened ObjectKeys
  import opened SchemaModel
  import opened SnapshotRules
  import opened CanonicalRules
  import opened Canonical
  import opened GraphModel
  import opened ProjectionClosure
  import opened TableDescriptions
  import opened GraphDescription
  import opened Inventory
  import opened InventoryFacts
  import opened InventoryAgreement
  import opened InventoryDependents
  import opened InventoryTheorem

  ghost predicate NamesColumn(s: SchemaSnapshot, name: string, key: ObjectKey) {
    exists c :: c in s.columns && c.key == key && c.name == name
  }

  /** Position by position the name of the column whose key is listed. */
  ghost predicate NamesColumns(s: SchemaSnapshot, names: seq<string>, keys: seq<ObjectKey>) {
    |names| == |keys| && forall i :: 0 <= i < |keys| ==> NamesColumn(s, names[i], keys[i])
  }

  ghost predicate NamesTable(s: SchemaSnapshot, name: string, key: ObjectKey) {
    exists t :: t in s.tables && t.key == key && t.name == name
  }

  ghost predicate PrintsKeys(texts: seq<string>, keys: seq<ObjectKey>) {
    |texts| == |keys| && forall i :: 0 <= i < |keys| ==> texts[i] == Print(keys[i])
  }

  /** A foreign key is described by its own name and those of its tables and columns. */
  ghost predicate TellsForeignKey(s: SchemaSnapshot, f: ForeignKeyDescription, c: ConstraintObject) {
    && c.referencedTableKey.Some?
    && f.key == Print(c.key) && f.name == c.name
    && f.tableKey == Print(c.tableKey) && NamesTable(s, f.table, c.tableKey)
    && NamesColumns(s, f.columns, c.columns) && PrintsKeys(f.columnKeys, c.columns)
    && f.referencedTableKey == Some(Print(c.referencedTableKey.value))
    && NamesTable(s, f.referencedTable, c.referencedTableKey.value)
    && NamesColumns(s, f.referencedColumns, c.referencedColumns)
    && PrintsKeys(f.referencedColumnKeys, c.referencedColumns)
  }

  /** The descriptions are those of the wanted foreign keys, each once, ordered by name. */
  ghost predicate TellsForeignKeys(s: SchemaSnapshot, told: seq<ForeignKeyDescription>,
                                   wanted: ConstraintObject -> bool) {
    && (forall i, j :: 0 <= i < j < |told| ==> !Less(ByText(told[j].name), ByText(told[i].name)))
    && exists keys: seq<ConstraintObject> ::
         && |keys| == |told| && NoDuplicates(keys)
         && (forall c :: c in keys <==> c in s.constraints && c.kind == ForeignKeyRule && wanted(c))
         && forall i :: 0 <= i < |told| ==> TellsForeignKey(s, told[i], keys[i])
  }

  /** The primary key is that of the first primary-key constraint listed, or none. */
  ghost predicate TellsPrimaryKey(s: SchemaSnapshot, names: seq<string>, constraints: seq<ConstraintObject>) {
    || (names == [] && forall c :: c in constraints ==> c.kind != PrimaryKeyRule)
    || exists i :: 0 <= i < |constraints| && constraints[i].kind == PrimaryKeyRule
                   && (forall j :: 0 <= j < i ==> constraints[j].kind != PrimaryKeyRule)
                   && NamesColumns(s, names, constraints[i].columns)
  }

  ghost predicate RefersTo(c: ConstraintObject, table: ObjectKey) { c.referencedTableKey == Some(table) }

  /** A description lists the table's own columns, constraints and indexes, names its primary key, and
      describes the foreign keys it has and those that refer to it. */
  ghost predicate Tells(d: TableDescription, s: SchemaSnapshot, table: TableObject) {
    && d.tableKey == Print(table.key)
    && (forall c :: c in d.columns <==> c in s.columns && c.tableKey == table.key)
    && (forall i, j :: 0 <= i < j < |d.columns| ==> d.columns[i].ordinalPosition < d.columns[j].ordinalPosition)
    && (forall c :: c in d.constraints <==> c in s.constraints && c.tableKey == table.key)
       && NoDuplicates(d.constraints)
    && (forall i :: i in d.indexes <==> i in s.indexes && i.tableKey == table.key) && NoDuplicates(d.indexes)
    && (forall i, j :: 0 <= i < j < |d.indexes| ==> !Less(ByText(d.indexes[j].name), ByText(d.indexes[i].name)))
    && TellsPrimaryKey(s, d.primaryKey, d.constraints)
    && TellsForeignKeys(s, d.outboundForeignKeys, (c: ConstraintObject) => c.tableKey == table.key)
    && TellsForeignKeys(s, d.inboundForeignKeys, (c: ConstraintObject) => RefersTo(c, table.key))
  }

  // ------------------------------------------------------------- known objects

  lemma ColumnNamed(s: SchemaSnapshot, key: ObjectKey)
    requires WellFormed(s) && OneOf(KnownKeys(Entries(s)), key, {Column})
    ensures NamesColumn(s, KeyName(key), key)
  {
    hide EntriesOk, Entries, Ordinals;
    var c := KnownColumn(s, key);
    assert ColumnOk(KnownKeys(Entries(s)), s.connectionAlias, c);
  }

  lemma TableNamed(s: SchemaSnapshot, key: ObjectKey)
    requires WellFormed(s) && OneOf(KnownKeys(Entries(s)), key, {Table})
    ensures NamesTable(s, key.objectName, key)
  {
    hide EntriesOk, Entries, Ordinals;
    var t := KnownTable(s, key);
    assert TableOk(KnownKeys(Entries(s)), s.connectionAlias, t);
  }

  lemma KeysNamed(s: SchemaSnapshot, keys: seq<ObjectKey>, table: ObjectKey)
    requires WellFormed(s) && ColumnsOf(KnownKeys(Entries(s)), keys, table)
    ensures NamesColumns(s, NamesFromKeys(keys), keys) && PrintsKeys(KeysAsStrings(keys), keys)
  {
    hide WellFormed, KnownKeys, Entries, KeyName, Print, NamesColumn;
    var names, texts := NamesFromKeys(keys), KeysAsStrings(keys);
    forall i | 0 <= i < |keys| ensures names[i] == KeyName(keys[i]) && texts[i] == Print(keys[i]) {}
    forall i | 0 <= i < |keys| ensures NamesColumn(s, names[i], keys[i]) {
      assert ColumnOf(KnownKeys(Entries(s)), keys[i], table);
      ColumnNamed(s, keys[i]);
    }
  }

  lemma ConstraintHolds(s: SchemaSnapshot, c: ConstraintObject)
    requires WellFormed(s) && c in s.constraints
    ensures ConstraintOk(KnownKeys(Entries(s)), s.connectionAlias, c)
  {
    hide EntriesOk, Ordinals, NoDuplicates;
  }

  lemma ForeignKeyTold(s: SchemaSnapshot, c: ConstraintObject)
    requires WellFormed(s) && c in s.constraints && c.kind == ForeignKeyRule
    ensures TellsForeignKey(s, ForeignKeyOf(c), c)
  {
    hide WellFormed, NamesColumns, NamesTable, PrintsKeys, NamesFromKeys, KeysAsStrings, KnownKeys, Entries, Print,
         NoDuplicates;
    ConstraintHolds(s, c);
    KeysNamed(s, c.columns, c.tableKey);
    KeysNamed(s, c.referencedColumns, c.referencedTableKey.value);
    TableNamed(s, c.tableKey);
    TableNamed(s, c.referencedTableKey.value);
  }

  lemma {:induction false} PrimaryKeyTold(s: SchemaSnapshot, constraints: seq<ConstraintObject>)
    requires WellFormed(s) && forall c :: c in constraints ==> c in s.constraints
    ensures TellsPrimaryKey(s, PrimaryKeyOf(constraints), constraints)
  {
    hide WellFormed, NamesColumns, NamesFromKeys, PrintsKeys;
    if constraints != [] {
      if constraints[0].kind == PrimaryKeyRule {
        PrimaryColumnsNamed(s, constraints[0]);
        assert TellsPrimaryKey(s, NamesFromKeys(constraints[0].columns), constraints);
      } else {
        var rest := constraints[1..];
        PrimaryKeyTold(s, rest);
        PrimaryKeyAfter(s, PrimaryKeyOf(rest), constraints);
      }
    }
  }

  lemma PrimaryColumnsNamed(s: SchemaSnapshot, c: ConstraintObject)
    requires WellFormed(s) && c in s.constraints
    ensures NamesColumns(s, NamesFromKeys(c.columns), c.columns)
  {
    hide WellFormed, NamesColumns, NamesFromKeys;
    ConstraintHolds(s, c);
    KeysNamed(s, c.columns, c.tableKey);
  }

  lemma PrimaryKeyAfter(s: SchemaSnapshot, names: seq<string>, constraints: seq<ConstraintObject>)
    requires constraints != [] && constraints[0].kind != PrimaryKeyRule
    requires TellsPrimaryKey(s, names, constraints[1..])
    ensures TellsPrimaryKey(s, names, constraints)
  {
    hide NamesColumns;
    var rest := constraints[1..];
    if i :| (0 <= i < |rest| && rest[i].kind == PrimaryKeyRule
             && (forall j :: 0 <= j < i ==> rest[j].kind != PrimaryKeyRule)
             && NamesColumns(s, names, rest[i].columns)) {
      assert constraints[i + 1] == rest[i];
      forall j | 0 <= j < i + 1 ensures constraints[j].kind != PrimaryKeyRule {
        if j > 0 { assert constraints[j] == rest[j - 1]; }
      }
    } else {
      forall c | c in constraints ensures c.kind != PrimaryKeyRule { assert c == constraints[0] || c in rest; }
    }
  }

  // ------------------------------------------------------- sorted descriptions

  lemma {:induction false} InsertMapped<A, B>(a: A, items: seq<A>, f: A -> B, key: B -> SortKey, keyA: A -> SortKey)
    requires forall x :: keyA(x) == key(f(x))
    ensures Insert(f(a), MapSeq(f, items), key) == MapSeq(f, Insert(a, items, keyA))
  {
    if items != [] {
      assert MapSeq(f, items)[1..] == MapSeq(f, items[1..]);
      InsertMapped(a, items[1..], f, key, keyA);
    }
  }

  /** Sorting what is made of some items is sorting the items. */
  lemma {:induction false} SortMapped<A, B>(items: seq<A>, f: A -> B, key: B -> SortKey, keyA: A -> SortKey)
    requires forall x :: keyA(x) == key(f(x))
    ensures StableSort(MapSeq(f, items), key) == MapSeq(f, StableSort(items, keyA))
  {
    if items != [] {
      assert MapSeq(f, items)[1..] == MapSeq(f, items[1..]) && MapSeq(f, items)[0] == f(items[0]);
      SortMapped(items[1..], f, key, keyA);
      InsertMapped(items[0], StableSort(items[1..], keyA), f, key, keyA);
    }
  }

  lemma ForeignKeysTold(s: SchemaSnapshot, keys: seq<ConstraintObject>, wanted: ConstraintObject -> bool)
    requires WellFormed(s) && NoDuplicates(keys)
    requires forall c :: c in keys <==> c in s.constraints && c.kind == ForeignKeyRule && wanted(c)
    ensures TellsForeignKeys(s, StableSort(MapSeq(ForeignKeyOf, keys), ByForeignKeyName), wanted)
  {
    hide WellFormed, StableSort, TellsForeignKey, ForeignKeyOf;
    var keyA := (c: ConstraintObject) => ByForeignKeyName(ForeignKeyOf(c));
    var sorted := StableSort(keys, keyA);
    var told := StableSort(MapSeq(ForeignKeyOf, keys), ByForeignKeyName);
    SortMapped(keys, ForeignKeyOf, ByForeignKeyName, keyA);
    StableSortKeeps(keys, keyA);
    StableSortKeeps(MapSeq(ForeignKeyOf, keys), ByForeignKeyName);
    StableSortElements(keys, keyA, sorted);
    NoDuplicatesPermuted(keys, sorted);
    forall i | 0 <= i < |told| ensures TellsForeignKey(s, told[i], sorted[i]) {
      assert sorted[i] in sorted && told[i] == ForeignKeyOf(sorted[i]);
      ForeignKeyTold(s, sorted[i]);
    }
    SortedByName(told);
  }

  lemma SortedByName(told: seq<ForeignKeyDescription>)
    requires Sorted(told, ByForeignKeyName)
    ensures forall i, j :: 0 <= i < j < |told| ==> !Less(ByText(told[j].name), ByText(told[i].name))
  {
    forall i, j | 0 <= i < j < |told| ensures !Less(ByText(told[j].name), ByText(told[i].name)) {
      assert !Less(ByForeignKeyName(told[j]), ByForeignKeyName(told[i]));
    }
  }

  // ------------------------------------------------------------ the collections

  /** What is owned by a table is selected by the table's printed key. */
  lemma OwnedSelected<T(!new)>(items: seq<T>, owner: T -> Option<string>, ownerKey: T -> ObjectKey, table: ObjectKey,
                               owned: seq<T>)
    requires owned == Filter(items, Belongs(owner, Print(table)))
    requires forall x :: x in items ==> owner(x) == Some(Print(ownerKey(x)))
    ensures forall x :: x in owned <==> x in items && ownerKey(x) == table
  {
    hide Print;
    FilterHolds(items, Belongs(owner, Print(table)), owned);
    forall x | x in items && owner(x) == Some(Print(table)) ensures ownerKey(x) == table {
      PrintInjective(ownerKey(x), table);
    }
  }

  lemma InboundSelected(s: SchemaSnapshot, table: ObjectKey, inbound: seq<ConstraintObject>)
    requires inbound == Filter(s.constraints, Belongs(ReferencedTable, Print(table)))
    ensures forall c :: c in inbound <==> c in s.constraints && c.kind == ForeignKeyRule && RefersTo(c, table)
  {
    hide Print;
    FilterHolds(s.constraints, Belongs(ReferencedTable, Print(table)), inbound);
    forall c | c in s.constraints && ReferencedTable(c) == Some(Print(table)) ensures RefersTo(c, table) {
      PrintInjective(c.referencedTableKey.value, table);
    }
  }

  lemma {:induction false} FilterDistinct<T(!new)>(items: seq<T>, wanted: T -> bool)
    requires NoDuplicates(items)
    ensures NoDuplicates(Filter(items, wanted))
  {
    if items != [] {
      var rest := items[1..];
      FilterDistinct(rest, wanted);
      FilterHolds(rest, wanted, Filter(rest, wanted));
      FirstIsNew(items);
    }
  }

  lemma FirstIsNew<T(!new)>(items: seq<T>)
    requires items != [] && NoDuplicates(items)
    ensures NoDuplicates(items[1..]) && items[0] !in items[1..]
  {
  }

  /** Objects with different keys are different. */
  lemma KeyedDistinct<T(!new)>(items: seq<T>, key: T -> ObjectKey)
    requires NoDuplicates(MapSeq(key, items))
    ensures NoDuplicates(items)
  {
    forall i, j | 0 <= i < j < |items| ensures items[i] != items[j] {
      assert MapSeq(key, items)[i] != MapSeq(key, items)[j];
    }
  }

  lemma EntriesDistinct(s: SchemaSnapshot)
    requires WellFormed(s)
    ensures NoDuplicates(s.columns) && NoDuplicates(s.constraints) && NoDuplicates(s.indexes)
    ensures forall i, j :: 0 <= i < j < |s.columns| && s.columns[i].tableKey == s.columns[j].tableKey ==>
              s.columns[i].ordinalPosition != s.columns[j].ordinalPosition
  {
    hide ObjectsOk, InScope, Entries;
    CollectionsDistinct(s);
    KeyedDistinct(s.columns, ColumnKey);
    KeyedDistinct(s.constraints, ConstraintKey);
    KeyedDistinct(s.indexes, IndexKey);
    forall i, j | 0 <= i < j < |s.columns| && s.columns[i].tableKey == s.columns[j].tableKey
      ensures s.columns[i].ordinalPosition != s.columns[j].ordinalPosition {
      assert Ordinals(s.columns)[i] != Ordinals(s.columns)[j];
    }
  }

  lemma ColumnsTold(s: SchemaSnapshot, table: TableObject, owned: seq<ColumnObject>, sorted: seq<ColumnObject>)
    requires WellFormed(s) && owned == Filter(s.columns, Belongs(ColumnTable, Print(table.key)))
    requires sorted == StableSort(owned, ByOrdinal)
    ensures forall c :: c in sorted <==> c in s.columns && c.tableKey == table.key
    ensures forall i, j :: 0 <= i < j < |sorted| ==> sorted[i].ordinalPosition < sorted[j].ordinalPosition
  {
    hide WellFormed, Print;
    EntriesDistinct(s);
    OwnedSelected(s.columns, ColumnTable, (c: ColumnObject) => c.tableKey, table.key, owned);
    FilterDistinct(s.columns, Belongs(ColumnTable, Print(table.key)));
    StableSortKeeps(owned, ByOrdinal);
    StableSortElements(owned, ByOrdinal, sorted);
    NoDuplicatesPermuted(owned, sorted);
    forall i, j | 0 <= i < j < |sorted| ensures sorted[i].ordinalPosition < sorted[j].ordinalPosition {
      assert sorted[i] in sorted && sorted[j] in sorted && sorted[i] != sorted[j];
      assert !Less(ByOrdinal(sorted[j]), ByOrdinal(sorted[i]));
      OrdinalsApart(s, sorted[i], sorted[j]);
    }
  }

  lemma OrdinalsApart(s: SchemaSnapshot, a: ColumnObject, b: ColumnObject)
    requires forall i, j :: 0 <= i < j < |s.columns| && s.columns[i].tableKey == s.columns[j].tableKey ==>
               s.columns[i].ordinalPosition != s.columns[j].ordinalPosition
    requires a in s.columns && b in s.columns && a != b && a.tableKey == b.tableKey
    ensures a.ordinalPosition != b.ordinalPosition
  {
    var i :| 0 <= i < |s.columns| && s.columns[i] == a;
    var j :| 0 <= j < |s.columns| && s.columns[j] == b;
  }

  lemma IndexesTold(s: SchemaSnapshot, table: TableObject, owned: seq<IndexObject>, sorted: seq<IndexObject>)
    requires WellFormed(s) && owned == Filter(s.indexes, Belongs(IndexTable, Print(table.key)))
    requires sorted == StableSort(owned, ByIndexName)
    ensures (forall i :: i in sorted <==> i in s.indexes && i.tableKey == table.key) && NoDuplicates(sorted)
    ensures forall i, j :: 0 <= i < j < |sorted| ==> !Less(ByText(sorted[j].name), ByText(sorted[i].name))
  {
    hide WellFormed, Print;
    EntriesDistinct(s);
    OwnedSelected(s.indexes, IndexTable, (i: IndexObject) => i.tableKey, table.key, owned);
    FilterDistinct(s.indexes, Belongs(IndexTable, Print(table.key)));
    StableSortKeeps(owned, ByIndexName);
    StableSortElements(owned, ByIndexName, sorted);
    NoDuplicatesPermuted(owned, sorted);
    forall i, j | 0 <= i < j < |sorted| ensures !Less(ByText(sorted[j].name), ByText(sorted[i].name)) {
      assert !Less(ByIndexName(sorted[j]), ByIndexName(sorted[i]));
    }
  }

  lemma ConstraintsTold(s: SchemaSnapshot, table: TableObject, owned: seq<ConstraintObject>,
                        inbound: seq<ConstraintObject>)
    requires WellFormed(s) && owned == Filter(s.constraints, Belongs(ConstraintTable, Print(table.key)))
    requires inbound == Filter(s.constraints, Belongs(ReferencedTable, Print(table.key)))
    ensures (forall c :: c in owned <==> c in s.constraints && c.tableKey == table.key) && NoDuplicates(owned)
    ensures TellsPrimaryKey(s, PrimaryKeyOf(owned), owned)
    ensures TellsForeignKeys(s, StableSort(MapSeq(ForeignKeyOf, Filter(owned, IsForeignKeyRule)), ByForeignKeyName),
                             (c: ConstraintObject) => c.tableKey == table.key)
    ensures TellsForeignKeys(s, StableSort(MapSeq(ForeignKeyOf, inbound), ByForeignKeyName),
                             (c: ConstraintObject) => RefersTo(c, table.key))
  {
    hide WellFormed, Print, StableSort, ForeignKeyOf, TellsForeignKeys, TellsPrimaryKey, NoDuplicates;
    var foreign := Filter(owned, IsForeignKeyRule);
    EntriesDistinct(s);
    OwnedSelected(s.constraints, ConstraintTable, (c: ConstraintObject) => c.tableKey, table.key, owned);
    InboundSelected(s, table.key, inbound);
    FilterDistinct(s.constraints, Belongs(ConstraintTable, Print(table.key)));
    FilterDistinct(s.constraints, Belongs(ReferencedTable, Print(table.key)));
    FilterHolds(owned, IsForeignKeyRule, foreign);
    FilterDistinct(owned, IsForeignKeyRule);
    PrimaryKeyTold(s, owned);
    ForeignKeysTold(s, foreign, (c: ConstraintObject) => c.tableKey == table.key);
    ForeignKeysTold(s, inbound, (c: ConstraintObject) => RefersTo(c, table.key));
  }

  // ------------------------------------------------------------------ results

  /** Whatever it is called and whichever dependents it mentions, a description of a table made of what the
      snapshot lists for it tells its columns, keys and indexes. */
  lemma DescriptionTells(snapshotKey: string, s: SchemaSnapshot, table: TableObject, name: string,
                         mentions: seq<Mention>)
    requires WellFormed(s)
    ensures Tells(DescriptionWith(snapshotKey, s, Print(table.key), name, mentions), s, table)
  {
    hide WellFormed, Print, StableSort, ForeignKeyOf, TellsForeignKeys, TellsPrimaryKey, NoDuplicates, Filter, MergeAll,
         MapSeq, PrimaryKeyOf;
    var t := Print(table.key);
    var columns, indexes := Filter(s.columns, Belongs(ColumnTable, t)), Filter(s.indexes, Belongs(IndexTable, t));
    ColumnsTold(s, table, columns, StableSort(columns, ByOrdinal));
    IndexesTold(s, table, indexes, StableSort(indexes, ByIndexName));
    ConstraintsTold(s, table, Filter(s.constraints, Belongs(ConstraintTable, t)),
                    Filter(s.constraints, Belongs(ReferencedTable, t)));
  }

  /** Both descriptions tell the snapshot's own names: that of the index always, that of the walk whenever it
      does not give up. */
  lemma BothTell(g: Graph, snapshotKey: string, s: CanonicalSchemaSnapshot, table: TableObject)
    requires Indexed(g, snapshotKey, s) && table in s.schema.tables
    ensures Tells(IndexedDescription(snapshotKey, s.schema, table), s.schema, table)
    ensures Described(g, snapshotKey, Print(table.key)).Some? ==>
              Tells(Described(g, snapshotKey, Print(table.key)).value, s.schema, table)
  {
    hide Indexed, CanonicalWellFormed, WellFormed, SelectedTable, AllMentions, Described, SnapshotMentions, Tells,
        Print,
         DescriptionWith;
    var t := Print(table.key);
    var columns := Filter(s.schema.columns, Belongs(ColumnTable, t));
    var sorted := StableSort(columns, ByOrdinal);
    IndexedParts(g, snapshotKey, s);
    SchemaPart(s);
    DescriptionTells(snapshotKey, s.schema, table, table.name, SnapshotMentions(s.schema, t));
    SortedColumns(s.schema, t, columns, sorted);
    OwnedColumnsAre(g, snapshotKey, s, t, columns);
    if SelectedTable(g, t).None? || AllMentions(g, t, sorted).None? {
      GivenUp(g, snapshotKey, t, columns);
    } else {
      var key, all := SelectedTable(g, t).value, AllMentions(g, t, sorted).value;
      WalkDescribes(g, snapshotKey, s, table, sorted, key, all);
      DescriptionTells(snapshotKey, s.schema, table, key.objectName, all);
    }
  }
}
