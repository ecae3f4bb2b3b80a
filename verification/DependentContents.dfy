/** What a description says of the dependents of a table, in terms of the objects the snapshot lists
    (crates/database-memory-cli/src/metadata.rs). */
module DependentContents {
  import opened Wrappers
  import opened Lists
  import opened Ordering
  import opened ObjectKeys
  import opened SchemaModel
  import opened SnapshotRules
  import opened ProjectionClosure
  import opened TableDescriptions
  import opened SchemaDiff
  import opened Inventory
  import opened InventoryDependents
  import opened InventoryTheorem
  import opened DescriptionConditions

  /** The printed keys of the columns of a table that a dependency list names, in order and once each. */
  ghost predicate ListsColumns(s: SchemaSnapshot, dependsOn: seq<ObjectKey>, table: ObjectKey, texts: seq<string>) {
    && StrictlySorted(texts, ByText)
    && forall text :: text in texts <==> NamesAColumn(s, dependsOn, table, text)
  }

  ghost predicate NamesAColumn(s: SchemaSnapshot, dependsOn: seq<ObjectKey>, table: ObjectKey, text: string) {
    exists d :: d in dependsOn && d.objectKind == Column && ReadsAs(s, d, table) && Print(d) == text
  }

  /** A dependent is a view or a routine that reads the table, with the columns it names, or a trigger on it. */
  ghost predicate TellsDependent(s: SchemaSnapshot, table: ObjectKey, e: Dependent) {
    || (exists v :: v in s.views && Reads(s, v.dependsOn, table) && ListsColumns(s, v.dependsOn, table, e.columnKeys)
                    && e == Dependent(Print(v.key), "view", v.name, "view_depends_on", e.columnKeys))
    || (exists r :: r in s.routines && Reads(s, r.dependsOn, table) && ListsColumns(s, r.dependsOn, table, e.columnKeys)
                    && e == Dependent(Print(r.key), "routine", r.name, "routine_depends_on", e.columnKeys))
    || (exists t :: t in s.triggers && t.tableKey == table
                    && e == Dependent(Print(t.key), "trigger", t.name, "table_has_trigger", []))
  }

  ghost predicate ListsKey(dependents: seq<Dependent>, key: ObjectKey) {
    exists e :: e in dependents && e.key == Print(key)
  }

  /** The dependents are just those, each once, ordered by printed key. */
  ghost predicate TellsDependents(dependents: seq<Dependent>, s: SchemaSnapshot, table: ObjectKey) {
    && (forall i, j :: 0 <= i < j < |dependents| ==> Less(ByText(dependents[i].key), ByText(dependents[j].key)))
    && (forall e :: e in dependents ==> TellsDependent(s, table, e))
    && (forall v :: v in s.views && Reads(s, v.dependsOn, table) ==> ListsKey(dependents, v.key))
    && (forall r :: r in s.routines && Reads(s, r.dependsOn, table) ==> ListsKey(dependents, r.key))
    && (forall t :: t in s.triggers && t.tableKey == table ==> ListsKey(dependents, t.key))
  }

  // ------------------------------------------------------------------- reasons

  /** Mentions of one object have reasons about that object. */
  lemma SameReasonObject(s: SchemaSnapshot, table: string, a: Reason, b: Reason, m: Mention, n: Mention)
    requires WellFormed(s) && Explains(s, table, a, m) && Explains(s, table, b, n) && m.dependent.key == n.dependent.key
    ensures match a
            case ViewDepends(v, _) => b.ViewDepends? && b.view == v
            case RoutineDepends(r, _) => b.RoutineDepends? && b.routine == r
            case TriggerFires(t) => b.TriggerFires? && b.trigger == t
  {
    ReasonOfMention(s, table, a, m);
    ReasonOfMention(s, table, b, n);
    PrintInjective(ReasonKey(a), ReasonKey(b));
    CollectionsDistinct(s);
    match (a, b)
    case (ViewDepends(v, _), ViewDepends(w, _)) => SameKeySameItem(s.views, ViewKey, v, w);
    case (RoutineDepends(r, _), RoutineDepends(x, _)) => SameKeySameItem(s.routines, RoutineKey, r, x);
    case (TriggerFires(t), TriggerFires(u)) => SameKeySameItem(s.triggers, TriggerKey, t, u);
    case _ =>
  }

  function DependsOnOf(reason: Reason): seq<ObjectKey> {
    match reason
    case ViewDepends(v, _) => v.dependsOn
    case RoutineDepends(r, _) => r.dependsOn
    case TriggerFires(_) => []
  }

  lemma ReasonFor(s: SchemaSnapshot, table: ObjectKey, reason: Reason, m: Mention, d: ObjectKey) returns (n: Mention)
    requires Explains(s, Print(table), reason, m) && d in DependsOnOf(reason) && ReadsAs(s, d, table)
    ensures Explained(s, Print(table), n) && n.dependent == m.dependent
    ensures n.column == if d.objectKind == Column then Some(Print(d)) else None
  {
    hide Print;
    n := Mention(m.dependent, if d.objectKind == Column then Some(Print(d)) else None);
    assert About(s, d, Print(table), n.column);
    var again := match reason
                 case ViewDepends(v, _) => ViewDepends(v, d)
                 case RoutineDepends(r, _) => RoutineDepends(r, d)
                 case TriggerFires(_) => reason;
    assert Explains(s, Print(table), again, n);
  }

  /** A column some mention names is one the dependency list of its object names. */
  lemma ColumnOfReason(s: SchemaSnapshot, table: ObjectKey, reason: Reason, m: Mention, text: string)
    requires Explains(s, Print(table), reason, m) && m.column == Some(text)
    ensures NamesAColumn(s, DependsOnOf(reason), table, text)
  {
    hide Print, ReadsAs;
    match reason
    case ViewDepends(v, d) => ReasonReads(s, table, d, m.column);
    case RoutineDepends(r, d) => ReasonReads(s, table, d, m.column);
    case TriggerFires(t) =>
  }

  // ------------------------------------------------------------------- entries

  lemma EntryColumns(s: SchemaSnapshot, table: ObjectKey, mentions: seq<Mention>, e: Dependent, m: Mention,
                     reason: Reason)
    requires WellFormed(s) && forall n :: n in mentions <==> Explained(s, Print(table), n)
    requires Summarises(e, mentions, e.key) && m in mentions && m.dependent.key == e.key
    requires Explains(s, Print(table), reason, m)
    ensures ListsColumns(s, DependsOnOf(reason), table, e.columnKeys)
  {
    hide WellFormed, Print, Explains, ReadsAs;
    forall text ensures text in e.columnKeys <==> NamesAColumn(s, DependsOnOf(reason), table, text) {
      if text in e.columnKeys {
        var n :| n in mentions && n.dependent.key == e.key && n.column == Some(text);
        var other :| Explains(s, Print(table), other, n);
        SameReasonObject(s, Print(table), reason, other, m, n);
        ColumnOfReason(s, table, other, n, text);
      }
      if NamesAColumn(s, DependsOnOf(reason), table, text) {
        var d :| d in DependsOnOf(reason) && d.objectKind == Column && ReadsAs(s, d, table) && Print(d) == text;
        var n := ReasonFor(s, table, reason, m, d);
      }
    }
  }

  lemma EntryTold(s: SchemaSnapshot, table: ObjectKey, mentions: seq<Mention>, e: Dependent)
    requires WellFormed(s) && forall n :: n in mentions <==> Explained(s, Print(table), n)
    requires Summarises(e, mentions, e.key)
    ensures TellsDependent(s, table, e)
  {
    hide WellFormed, Print, ReadsAs, About, ListsColumns;
    var m :| m in mentions && m.dependent.key == e.key;
    var reason :| Explains(s, Print(table), reason, m);
    EntryColumns(s, table, mentions, e, m, reason);
    assert e.(columnKeys := []) == m.dependent;
    match reason
    case ViewDepends(v, d) =>
      ReasonReads(s, table, d, m.column);
      assert Reads(s, v.dependsOn, table);
    case RoutineDepends(r, d) =>
      ReasonReads(s, table, d, m.column);
      assert Reads(s, r.dependsOn, table);
    case TriggerFires(t) =>
      PrintInjective(t.tableKey, table);
      NoColumns(s, table, e.columnKeys);
  }

  lemma FirstIsIn(texts: seq<string>)
    ensures texts == [] || texts[0] in texts
  {}

  lemma NoColumns(s: SchemaSnapshot, table: ObjectKey, texts: seq<string>)
    requires ListsColumns(s, [], table, texts)
    ensures texts == []
  {
    FirstIsIn(texts);
  }

  // ------------------------------------------------------------------- result

  lemma MentionListed(mentions: seq<Mention>, m: Mention, key: ObjectKey)
    requires Coherent(mentions) && m in mentions && m.dependent.key == Print(key)
    ensures ListsKey(Listed(mentions), key)
  {
    hide Coherent, Print, Listed;
    ListedKind(mentions, m, m.dependent);
  }

  lemma ListedInOrder(mentions: seq<Mention>, merged: map<string, Dependent>, listed: seq<Dependent>)
    requires Coherent(mentions) && merged == MergeAll(mentions) && listed == Lookup(merged, SortedKeys(merged))
    ensures forall i, j :: 0 <= i < j < |listed| ==> Less(ByText(listed[i].key), ByText(listed[j].key))
    ensures forall e :: e in listed ==> Summarises(e, mentions, e.key)
  {
    MergeAllSummarises(mentions, merged);
    var keys := SortedKeys(merged);
    forall i | 0 <= i < |listed| ensures listed[i].key == keys[i] && Summarises(listed[i], mentions, keys[i]) {
      assert keys[i] in keys;
    }
  }

  /** The index names the table, and describes its dependents by the snapshot's own objects. */
  lemma IndexedDependents(snapshotKey: string, s: SchemaSnapshot, table: TableObject)
    requires WellFormed(s) && table in s.tables
    ensures IndexedDescription(snapshotKey, s, table).snapshotKey == snapshotKey
            && IndexedDescription(snapshotKey, s, table).tableName == table.name
    ensures TellsDependents(IndexedDescription(snapshotKey, s, table).dependents, s, table.key)
  {
    hide WellFormed, Print, SnapshotMentions, TellsDependent, Explains, ReadsAs, Coherent, MergeAll, Summarises, Less;
    var t := Print(table.key);
    var mentions := SnapshotMentions(s, t);
    var merged, listed := MergeAll(mentions), Listed(mentions);
    assert IndexedDescription(snapshotKey, s, table).dependents == listed by { DependentsOf(snapshotKey, s, table); }
    MentionsAreCoherent(s, t);
    MentionsAreExplained(s, t);
    ListedInOrder(mentions, merged, listed);
    forall e | e in listed ensures TellsDependent(s, table.key, e) { EntryTold(s, table.key, mentions, e); }
    forall v | v in s.views && Reads(s, v.dependsOn, table.key) ensures ListsKey(listed, v.key) {
      ViewListed(s, table.key, v, mentions);
    }
    forall r | r in s.routines && Reads(s, r.dependsOn, table.key) ensures ListsKey(listed, r.key) {
      RoutineListed(s, table.key, r, mentions);
    }
    TableNamed(s, table);
    forall x | x in s.triggers && x.tableKey == table.key ensures ListsKey(listed, x.key) {
      TriggerListed(s, table.key, x, mentions);
    }
  }

  lemma DependentsOf(snapshotKey: string, s: SchemaSnapshot, table: TableObject)
    ensures IndexedDescription(snapshotKey, s, table).snapshotKey == snapshotKey
            && IndexedDescription(snapshotKey, s, table).tableName == table.name
            && IndexedDescription(snapshotKey, s, table).dependents == Listed(SnapshotMentions(s, Print(table.key)))
  {
    hide Print, SnapshotMentions, Filter, MergeAll, PrimaryKeyOf;
  }

  lemma ViewListed(s: SchemaSnapshot, table: ObjectKey, v: ViewObject, mentions: seq<Mention>)
    requires v in s.views && Reads(s, v.dependsOn, table) && Coherent(mentions)
    requires forall m :: m in mentions <==> Explained(s, Print(table), m)
    ensures ListsKey(Listed(mentions), v.key)
  {
    hide Print, Coherent, Listed;
    var d :| d in v.dependsOn && ReadsAs(s, d, table);
    var m := Mention(ViewDependent(v), if d.objectKind == Column then Some(Print(d)) else None);
    assert Explains(s, Print(table), ViewDepends(v, d), m);
    MentionListed(mentions, m, v.key);
  }

  lemma RoutineListed(s: SchemaSnapshot, table: ObjectKey, r: RoutineObject, mentions: seq<Mention>)
    requires r in s.routines && Reads(s, r.dependsOn, table) && Coherent(mentions)
    requires forall m :: m in mentions <==> Explained(s, Print(table), m)
    ensures ListsKey(Listed(mentions), r.key)
  {
    hide Print, Coherent, Listed;
    var d :| d in r.dependsOn && ReadsAs(s, d, table);
    var m := RoutineReasons(s, table, r, d);
    MentionListed(mentions, m, r.key);
  }

  lemma TriggerListed(s: SchemaSnapshot, table: ObjectKey, t: TriggerObject, mentions: seq<Mention>)
    requires t in s.triggers && t.tableKey == table && table.objectKind == Table && Coherent(mentions)
    requires forall m :: m in mentions <==> Explained(s, Print(table), m)
    ensures ListsKey(Listed(mentions), t.key)
  {
    hide Print, Coherent, Listed;
    var m := Mention(TriggerDependent(t), None);
    assert Explains(s, Print(table), TriggerFires(t), m);
    MentionListed(mentions, m, t.key);
  }
}
