/** The inventory index: every table described from the snapshot alone
    (crates/database-memory-cli/src/metadata.rs). */
module Inventory {
  import opened Wrappers
  import opened Lists
  import opened Ordering
  import opened ObjectKeys
  import opened SchemaModel
  import opened Canonical
  import opened TableDescriptions
  import opened SchemaDiff

  function ListAt<T>(m: map<string, seq<T>>, key: string): seq<T> { if key in m then m[key] else [] }

  function DependentsAt(m: map<string, map<string, Dependent>>, key: string): map<string, Dependent> {
    if key in m then m[key] else map[]
  }

  // ------------------------------------------------------------------- groups

  function ColumnTable(c: ColumnObject): Option<string> { Some(Print(c.tableKey)) }

  function ConstraintTable(c: ConstraintObject): Option<string> { Some(Print(c.tableKey)) }

  function IndexTable(i: IndexObject): Option<string> { Some(Print(i.tableKey)) }

  /** The table a foreign key refers to. */
  function ReferencedTable(c: ConstraintObject): Option<string> {
    if c.kind != ForeignKeyRule then None
    else match c.referencedTableKey case Some(k) => Some(Print(k)) case None => None
  }

  function Belongs<T>(group: T -> Option<string>, key: string): T -> bool { (x: T) => group(x) == Some(key) }

  /** Pushes every item onto the list of its group. */
  method GroupBy<T>(items: seq<T>, group: T -> Option<string>) returns (m: map<string, seq<T>>)
    ensures forall key :: ListAt(m, key) == Filter(items, Belongs(group, key))
  {
    m := map[];
    for i := 0 to |items|
      invariant Grouped(m, items[..i], group)
    {
      m := AddToGroup(m, items[..i], items[i], group);
      PrefixLast(items, i);
    }
    WholePrefix(items);
  }

  ghost predicate Grouped<T>(m: map<string, seq<T>>, items: seq<T>, group: T -> Option<string>) {
    forall key :: ListAt(m, key) == Filter(items, Belongs(group, key))
  }

  method AddToGroup<T>(m0: map<string, seq<T>>, ghost before: seq<T>, item: T, group: T -> Option<string>)
    returns (m: map<string, seq<T>>)
    requires Grouped(m0, before, group)
    ensures Grouped(m, before + [item], group)
  {
    m := m0;
    match group(item) {
      case Some(key) => m := m0[key := ListAt(m0, key) + [item]];
      case None =>
    }
    forall key ensures ListAt(m, key) == Filter(before + [item], Belongs(group, key)) {
      FilterLast(before, item, Belongs(group, key));
    }
  }

  // --------------------------------------------------------------- dependents

  function DependentOf(key: ObjectKey, name: string, kind: string, relation: string): Dependent {
    Dependent(Print(key), kind, name, relation, [])
  }

  function ViewDependent(v: ViewObject): Dependent { DependentOf(v.key, v.name, "view", "view_depends_on") }

  function RoutineDependent(r: RoutineObject): Dependent { DependentOf(r.key, r.name, "routine", "routine_depends_on") }

  function TriggerDependent(t: TriggerObject): Dependent { DependentOf(t.key, t.name, "trigger", "table_has_trigger") }

  /** What one dependency says about a table: the object depends on it, or on one of its columns. */
  function MentionOf(d: Dependent, dependency: ObjectKey, columnTables: map<string, string>,
                     table: string): seq<Mention> {
    if dependency.objectKind == Table && Print(dependency) == table then [Mention(d, None)]
    else if dependency.objectKind == Column && Print(dependency) in columnTables
        && columnTables[Print(dependency)] == table
    then [Mention(d, Some(Print(dependency)))]
    else []
  }

  function DependencyMentions(d: Dependent, dependencies: seq<ObjectKey>, columnTables: map<string, string>,
                              table: string): seq<Mention> {
    FlatMap(dependencies, k => MentionOf(d, k, columnTables, table))
  }

  function TriggerMentionOf(t: TriggerObject, table: string): seq<Mention> {
    if t.tableKey.objectKind == Table && Print(t.tableKey) == table then [Mention(TriggerDependent(t), None)] else []
  }

  function ViewMentions(v: ViewObject, columnTables: map<string, string>, table: string): seq<Mention> {
    DependencyMentions(ViewDependent(v), v.dependsOn, columnTables, table)
  }

  function RoutineMentions(r: RoutineObject, columnTables: map<string, string>, table: string): seq<Mention> {
    DependencyMentions(RoutineDependent(r), r.dependsOn, columnTables, table)
  }

  function ViewsMentions(views: seq<ViewObject>, columnTables: map<string, string>, table: string): seq<Mention> {
    FlatMap(views, v => ViewMentions(v, columnTables, table))
  }

  function RoutinesMentions(routines: seq<RoutineObject>, columnTables: map<string, string>,
                            table: string): seq<Mention> {
    FlatMap(routines, r => RoutineMentions(r, columnTables, table))
  }

  function TriggersMentions(triggers: seq<TriggerObject>, table: string): seq<Mention> {
    FlatMap(triggers, t => TriggerMentionOf(t, table))
  }

  /** The table of every column, by printed keys. */
  function ColumnTables(columns: seq<ColumnObject>): map<string, string> {
    if columns == [] then map[]
    else
      var last := columns[|columns| - 1];
      ColumnTables(columns[..|columns| - 1])[Print(last.key) := Print(last.tableKey)]
  }

  /** All mentions of a table's dependents, in the order the snapshot is read. */
  function SnapshotMentions(s: SchemaSnapshot, table: string): seq<Mention> {
    var columnTables := ColumnTables(s.columns);
    ViewsMentions(s.views, columnTables, table) + RoutinesMentions(s.routines, columnTables, table)
        + TriggersMentions(s.triggers, table)
  }

  lemma {:induction false} FlatMapLast<T, U>(items: seq<T>, last: T, f: T -> seq<U>)
    ensures FlatMap(items + [last], f) == FlatMap(items, f) + f(last)
  {
    if items == [] {
      assert [last][1..] == [] && f(last) + [] == f(last);
    } else {
      assert (items + [last])[1..] == items[1..] + [last];
      FlatMapLast(items[1..], last, f);
    }
  }

  // ---------------------------------------------------------------- the index

  class InventoryDescriptionIndex {
    var columns: map<string, seq<ColumnObject>>
    var constraints: map<string, seq<ConstraintObject>>
    var inboundForeignKeys: map<string, seq<ConstraintObject>>
    var indexes: map<string, seq<IndexObject>>
    var dependents: map<string, map<string, Dependent>>

    /** What the index holds for every table. */
    ghost predicate Covers(s: SchemaSnapshot) reads this {
      && (forall t :: ListAt(columns, t) == Filter(s.columns, Belongs(ColumnTable, t)))
      && (forall t :: ListAt(constraints, t) == Filter(s.constraints, Belongs(ConstraintTable, t)))
      && (forall t :: ListAt(inboundForeignKeys, t) == Filter(s.constraints, Belongs(ReferencedTable, t)))
      && (forall t :: ListAt(indexes, t) == Filter(s.indexes, Belongs(IndexTable, t)))
      && (forall t :: DependentsAt(dependents, t) == MergeAll(SnapshotMentions(s, t)))
    }

    constructor (s: SchemaSnapshot)
      ensures Covers(s)
    {
      columns, constraints, inboundForeignKeys, indexes, dependents := map[], map[], map[], map[], map[];
      new;
      var byColumn := GroupBy(s.columns, ColumnTable);
      var byConstraint := GroupBy(s.constraints, ConstraintTable);
      var byReference := GroupBy(s.constraints, ReferencedTable);
      var byIndex := GroupBy(s.indexes, IndexTable);
      columns, constraints, inboundForeignKeys, indexes := byColumn, byConstraint, byReference, byIndex;
      RecordAll(s);
    }

    /** `record_dependent`: merges a mention into the entry of one table. */
    method RecordDependent(table: string, d: Dependent, column: Option<string>)
      modifies `dependents
      ensures forall t :: DependentsAt(dependents, t)
                       == if t == table then Merge(DependentsAt(old(dependents), t), Mention(d, column))
                       else DependentsAt(old(dependents), t)
    {
      dependents := dependents[table := Merge(DependentsAt(dependents, table), Mention(d, column))];
    }

    /** `record_dependencies`: dependencies on tables, and on columns whose table is known. */
    method RecordDependencies(d: Dependent, dependencies: seq<ObjectKey>, columnTables: map<string, string>)
      modifies `dependents
      ensures forall t :: DependentsAt(dependents, t)
                       == MergeInto(DependentsAt(old(dependents), t),
                                    DependencyMentions(d, dependencies, columnTables, t))
    {
      for i := 0 to |dependencies|
        invariant forall t :: DependentsAt(dependents, t)
                           == MergeInto(DependentsAt(old(dependents), t),
                                        DependencyMentions(d, dependencies[..i], columnTables, t))
      {
        RecordDependency(d, dependencies[i], columnTables, old(dependents), dependencies[..i]);
        PrefixLast(dependencies, i);
      }
      WholePrefix(dependencies);
    }

    method RecordDependency(d: Dependent, dependency: ObjectKey, columnTables: map<string, string>,
                            ghost start: map<string, map<string, Dependent>>, ghost before: seq<ObjectKey>)
      requires forall t ::
                 DependentsAt(dependents, t)
                 == MergeInto(DependentsAt(start, t), DependencyMentions(d, before, columnTables, t))
      modifies `dependents
      ensures forall t :: DependentsAt(dependents, t)
                       == MergeInto(DependentsAt(start, t),
                                    DependencyMentions(d, before + [dependency], columnTables, t))
    {
      ghost var was := dependents;
      if dependency.objectKind == Table {
        RecordDependent(Print(dependency), d, None);
      } else if dependency.objectKind == Column {
        if Print(dependency) in columnTables {
          RecordDependent(columnTables[Print(dependency)], d, Some(Print(dependency)));
        }
      }
      forall t ensures DependentsAt(dependents, t)
          == MergeInto(DependentsAt(start, t), DependencyMentions(d, before + [dependency], columnTables, t)) {
        MentionedLast(d, before, dependency, columnTables, t, DependentsAt(start, t));
      }
    }

    method RecordViews(views: seq<ViewObject>, columnTables: map<string, string>)
      requires dependents == map[]
      modifies `dependents
      ensures forall t :: DependentsAt(dependents, t) == MergeAll(ViewsMentions(views, columnTables, t))
    {
      for i := 0 to |views|
        invariant forall t :: DependentsAt(dependents, t) == MergeAll(ViewsMentions(views[..i], columnTables, t))
      {
        RecordDependencies(ViewDependent(views[i]), views[i].dependsOn, columnTables);
        forall t ensures DependentsAt(dependents, t)
            == MergeAll(ViewsMentions(views[..i] + [views[i]], columnTables, t)) {
          FlatMapLast(views[..i], views[i], v => ViewMentions(v, columnTables, t));
          MergeAllJoined(ViewsMentions(views[..i], columnTables, t), ViewMentions(views[i], columnTables, t));
        }
        PrefixLast(views, i);
      }
      WholePrefix(views);
    }

    method RecordRoutines(routines: seq<RoutineObject>, columnTables: map<string, string>,
                          ghost before: string -> seq<Mention>)
      requires forall t :: DependentsAt(dependents, t) == MergeAll(before(t))
      modifies `dependents
      ensures forall t :: DependentsAt(dependents, t) == MergeAll(before(t)
                                                                  + RoutinesMentions(routines, columnTables, t))
    {
      assert forall t :: before(t) + RoutinesMentions([], columnTables, t) == before(t);
      for i := 0 to |routines|
        invariant forall t :: DependentsAt(dependents, t) == MergeAll(before(t)
                                                                      + RoutinesMentions(routines[..i], columnTables,
                                                                              t))
      {
        RecordRoutine(routines[i], columnTables, before, routines[..i]);
        PrefixLast(routines, i);
      }
      WholePrefix(routines);
    }

    method RecordRoutine(r: RoutineObject, columnTables: map<string, string>, ghost before: string -> seq<Mention>,
                         ghost done: seq<RoutineObject>)
      requires forall t :: DependentsAt(dependents, t) == MergeAll(before(t) + RoutinesMentions(done, columnTables, t))
      modifies `dependents
      ensures forall t :: DependentsAt(dependents, t) == MergeAll(before(t)
                                                                  + RoutinesMentions(done + [r], columnTables, t))
    {
      RecordDependencies(RoutineDependent(r), r.dependsOn, columnTables);
      forall t ensures DependentsAt(dependents, t)
          == MergeAll(before(t) + RoutinesMentions(done + [r], columnTables, t)) {
        var so, more := RoutinesMentions(done, columnTables, t), RoutineMentions(r, columnTables, t);
        FlatMapLast(done, r, x => RoutineMentions(x, columnTables, t));
        MergeThird(before(t), so, more);
      }
    }

    method RecordTriggers(triggers: seq<TriggerObject>, ghost before: string -> seq<Mention>)
      requires forall t :: DependentsAt(dependents, t) == MergeAll(before(t))
      modifies `dependents
      ensures forall t :: DependentsAt(dependents, t) == MergeAll(before(t) + TriggersMentions(triggers, t))
    {
      assert forall t :: before(t) + TriggersMentions([], t) == before(t);
      for i := 0 to |triggers|
        invariant forall t :: DependentsAt(dependents, t) == MergeAll(before(t) + TriggersMentions(triggers[..i], t))
      {
        RecordTrigger(triggers[i], before, triggers[..i]);
        PrefixLast(triggers, i);
      }
      WholePrefix(triggers);
    }

    method RecordTrigger(trigger: TriggerObject, ghost before: string -> seq<Mention>, ghost done: seq<TriggerObject>)
      requires forall t :: DependentsAt(dependents, t) == MergeAll(before(t) + TriggersMentions(done, t))
      modifies `dependents
      ensures forall t :: DependentsAt(dependents, t) == MergeAll(before(t) + TriggersMentions(done + [trigger], t))
    {
      if trigger.tableKey.objectKind == Table {
        RecordDependent(Print(trigger.tableKey), TriggerDependent(trigger), None);
      }
      forall t ensures DependentsAt(dependents, t) == MergeAll(before(t) + TriggersMentions(done + [trigger], t)) {
        FlatMapLast(done, trigger, x => TriggerMentionOf(x, t));
        MergeThird(before(t), TriggersMentions(done, t), TriggerMentionOf(trigger, t));
        MergeFew(MergeAll(before(t) + TriggersMentions(done, t)), TriggerMentionOf(trigger, t));
      }
    }

    method RecordAll(s: SchemaSnapshot)
      requires dependents == map[]
      modifies `dependents
      ensures forall t :: DependentsAt(dependents, t) == MergeAll(SnapshotMentions(s, t))
    {
      var columnTables := MapColumns(s.columns);
      RecordViews(s.views, columnTables);
      RecordRoutines(s.routines, columnTables, t => ViewsMentions(s.views, columnTables, t));
      RecordTriggers(s.triggers, t => ViewsMentions(s.views, columnTables, t)
                     + RoutinesMentions(s.routines, columnTables, t));
    }

    /** `describe`: the description of one table from what is indexed for it. */
    method Describe(snapshotKey: string, table: TableObject, ghost s: SchemaSnapshot) returns (d: TableDescription)
      requires Covers(s)
      ensures var t := Print(table.key);
              d == DescriptionOf(snapshotKey, t, table.name, Filter(s.columns, Belongs(ColumnTable, t)),
                                 StableSort(Filter(s.constraints, Belongs(ConstraintTable, t)), ConstraintOrder),
                                 Filter(s.constraints, Belongs(ReferencedTable, t)),
                                 Filter(s.indexes, Belongs(IndexTable, t)),
                                 MergeAll(SnapshotMentions(s, t)))
    {
      var t := Print(table.key);
      var sortedConstraints := StableSort(ListAt(constraints, t), ConstraintOrder);
      var primaryKey := FindPrimaryKey(sortedConstraints);
      var outbound := StableSort(MapSeq(ForeignKeyOf, Filter(sortedConstraints, IsForeignKeyRule)), ByForeignKeyName);
      var inbound := StableSort(MapSeq(ForeignKeyOf, ListAt(inboundForeignKeys, t)), ByForeignKeyName);
      var merged := DependentsAt(dependents, t);
      d := TableDescription(snapshotKey, t, table.name, StableSort(ListAt(columns, t), ByOrdinal), primaryKey,
                            sortedConstraints, outbound, inbound,
                            StableSort(ListAt(indexes, t), ByIndexName), Lookup(merged, SortedKeys(merged)));
    }
  }

  lemma MergeThird(a: seq<Mention>, b: seq<Mention>, c: seq<Mention>)
    ensures MergeAll(a + (b + c)) == MergeInto(MergeAll(a + b), c)
  {
    assert a + (b + c) == (a + b) + c;
    MergeAllJoined(a + b, c);
  }

  lemma MergeFew(start: map<string, Dependent>, more: seq<Mention>)
    requires |more| <= 1
    ensures MergeInto(start, more) == if more == [] then start else Merge(start, more[0])
  {
    if more != [] { assert more[..0] == []; }
  }

  lemma MentionedLast(d: Dependent, before: seq<ObjectKey>, last: ObjectKey, columnTables: map<string, string>,
                      table: string, start: map<string, Dependent>)
    ensures MergeInto(start, DependencyMentions(d, before + [last], columnTables, table))
         == var so := MergeInto(start, DependencyMentions(d, before, columnTables, table));
            var more := MentionOf(d, last, columnTables, table);
            if more == [] then so else Merge(so, more[0])
  {
    FlatMapLast(before, last, k => MentionOf(d, k, columnTables, table));
    var so, more := DependencyMentions(d, before, columnTables, table), MentionOf(d, last, columnTables, table);
    if more == [] {
      assert so + more == so;
    } else {
      assert more == [more[0]];
      MergeIntoLast(start, so, more[0]);
    }
  }

  method MapColumns(columns: seq<ColumnObject>) returns (m: map<string, string>)
    ensures m == ColumnTables(columns)
  {
    m := map[];
    for i := 0 to |columns|
      invariant m == ColumnTables(columns[..i])
    {
      PrefixLast(columns, i);
      assert (columns[..i] + [columns[i]])[..i] == columns[..i];
      m := m[Print(columns[i].key) := Print(columns[i].tableKey)];
    }
    WholePrefix(columns);
  }
}
