/** The validator that walks a snapshot and collects issues (snapshot_validation.rs). */
module SnapshotValidation {
  import opened Wrappers
  import opened Lists
  import opened ObjectKeys
  import opened SchemaModel
  import opened TextRules
  import opened SnapshotRules

  datatype Issue = Issue(code: string, objectKey: string)

  /** Issues are only ever added; `failed` says whether any was. */
  predicate Adds(before: seq<Issue>, after: seq<Issue>, failed: bool) {
    |before| <= |after| && (|before| < |after| <==> failed)
  }

  /** A registry files each key under its printed form. */
  ghost predicate Files(objects: map<string, ObjectKey>) { forall t :: t in objects ==> Print(objects[t]) == t }

  lemma Filed(objects: map<string, ObjectKey>, key: ObjectKey)
    requires Files(objects)
    ensures Print(key) in objects <==> key in objects.Values
    ensures Print(key) in objects ==> objects[Print(key)] == key
  {
    if Print(key) in objects { PrintInjective(objects[Print(key)], key); }
    if key in objects.Values {
      var t :| t in objects && objects[t] == key;
    }
  }

  class SnapshotValidator {
    var objects: map<string, ObjectKey>
    var issues: seq<Issue>

    constructor ()
      ensures objects == map[] && issues == []
    {
      objects, issues := map[], [];
    }

    method AddIssue(code: string, objectKey: ObjectKey)
      modifies this`issues
      ensures Adds(old(issues), issues, true)
    {
      issues := issues + [Issue(code, Print(objectKey))];
    }

    method AddIssueIf(failed: bool, code: string, objectKey: ObjectKey)
      modifies this`issues
      ensures Adds(old(issues), issues, failed)
    {
      if failed { AddIssue(code, objectKey); }
    }

    method Register(key: ObjectKey, expectedKind: ObjectKind)
      requires Files(objects)
      modifies this
      ensures Files(objects) && objects.Values == old(objects.Values) + {key}
      ensures Adds(old(issues), issues, key.objectKind != expectedKind || key in old(objects.Values))
    {
      AddIssueIf(key.objectKind != expectedKind, "object_kind_mismatch", key);
      var stableKey := Print(key);
      Filed(objects, key);
      AddIssueIf(stableKey in objects, "duplicate_object_key", key);
      ghost var before := objects;
      objects := objects[stableKey := key];
      forall k ensures k in objects.Values <==> k in before.Values || k == key {
        Filed(before, k);
        Filed(objects, k);
        if k in before.Values { assert objects[Print(k)] == k; }
        if k == key { assert objects[stableKey] == k; }
      }
    }

    method RegisterAll(entries: seq<Entry>)
      requires objects == map[] && issues == []
      modifies this
      ensures Files(objects) && objects.Values == KnownKeys(entries)
      ensures issues == [] <==> EntriesAgree(entries)
    {
      for i := 0 to |entries|
        invariant Files(objects) && objects.Values == KnownKeys(entries[..i])
        invariant issues == [] <==> EntriesAgree(entries[..i])
      {
        Register(entries[i].key, entries[i].kind);
        EntriesLonger(entries[..i], entries[i]);
        PrefixLast(entries, i);
      }
      WholePrefix(entries);
    }

    method ValidateIdentity(key: ObjectKey, alias: string, objectName: string, subObject: Option<string>)
      modifies this`issues
      ensures Adds(old(issues), issues, !Identified(key, alias, objectName, subObject))
    {
      AddIssueIf(key.connectionAlias != alias, "connection_alias_mismatch", key);
      AddIssueIf(key.objectName != objectName || key.subObject != subObject, "object_identity_mismatch", key);
    }

    /** Visits every registered key once. */
    method ValidateRegisteredScope(alias: string, database: ObjectKey)
      requires Files(objects)
      modifies this`issues
      ensures Adds(old(issues), issues, exists k :: k in objects.Values && !InScope(k, alias, database))
    {
      var rest := objects.Keys;
      while rest != {}
        invariant rest <= objects.Keys
        invariant Adds(old(issues), issues,
                       exists t :: t in objects.Keys - rest && !InScope(objects[t], alias, database))
        decreases rest
      {
        var t :| t in rest;
        ValidateScopeOf(objects[t], alias, database);
        rest := rest - {t};
        assert objects.Keys - rest == (objects.Keys - rest - {t}) + {t};
      }
      assert objects.Keys - {} == objects.Keys;
      if exists t :: t in objects.Keys && !InScope(objects[t], alias, database) {
        var t :| t in objects.Keys && !InScope(objects[t], alias, database);
        assert objects[t] in objects.Values;
      }
    }

    method ValidateScopeOf(key: ObjectKey, alias: string, database: ObjectKey)
      modifies this`issues
      ensures Adds(old(issues), issues, !InScope(key, alias, database))
    {
      AddIssueIf(key.connectionAlias != alias, "connection_alias_mismatch", key);
      AddIssueIf(Blank(key.sourceKind) || Blank(key.database) || Blank(key.schema)
                 || Blank(key.objectName), "object_identity_incomplete", key);
      AddIssueIf(key.sourceKind != database.sourceKind
                 || key.database != database.database, "object_source_scope_mismatch", key);
    }

    method RequireAny(target: ObjectKey, owner: ObjectKey)
      requires Files(objects)
      modifies this`issues
      ensures Adds(old(issues), issues, target !in objects.Values)
    {
      Filed(objects, target);
      AddIssueIf(Print(target) !in objects, "relationship_target_missing", owner);
    }

    method RequireKind(target: ObjectKey, kind: ObjectKind, owner: ObjectKey)
      requires Files(objects)
      modifies this`issues
      ensures Adds(old(issues), issues, !OneOf(objects.Values, target, {kind}))
    {
      RequireOneOf(target, {kind}, owner);
    }

    method RequireOneOf(target: ObjectKey, kinds: set<ObjectKind>, owner: ObjectKey)
      requires Files(objects)
      modifies this`issues
      ensures Adds(old(issues), issues, !OneOf(objects.Values, target, kinds))
    {
      Filed(objects, target);
      if Print(target) in objects {
        AddIssueIf(objects[Print(target)].objectKind !in kinds, "relationship_target_kind_mismatch", owner);
      } else {
        AddIssue("relationship_target_missing", owner);
      }
    }

    method RequireChildOf(child: ObjectKey, parent: ObjectKey, owner: ObjectKey)
      modifies this`issues
      ensures Adds(old(issues), issues, !ChildOf(child, parent))
    {
      AddIssueIf(child.database != parent.database || child.schema != parent.schema, "object_scope_mismatch", owner);
    }

    method RequireColumnOf(column: ObjectKey, table: ObjectKey, owner: ObjectKey)
      requires Files(objects)
      modifies this`issues
      ensures Adds(old(issues), issues, !ColumnOf(objects.Values, column, table))
    {
      RequireKind(column, Column, owner);
      AddIssueIf(column.database != table.database || column.schema != table.schema
                 || column.objectName != table.objectName,
                 "column_owner_mismatch", owner);
    }

    method RequireColumnsOf(columns: seq<ObjectKey>, table: ObjectKey, owner: ObjectKey)
      requires Files(objects)
      modifies this`issues
      ensures Adds(old(issues), issues, !ColumnsOf(objects.Values, columns, table))
    {
      for i := 0 to |columns|
        invariant Adds(old(issues), issues, !ColumnsOf(objects.Values, columns[..i], table))
      {
        RequireColumnOf(columns[i], table, owner);
        PrefixLast(columns, i);
      }
      WholePrefix(columns);
    }

    method ValidateBoundedText(text: Option<string>, code: string, owner: ObjectKey)
      modifies this`issues
      ensures Adds(old(issues), issues, !Fits(text, MAX_METADATA_TEXT_BYTES))
    {
      AddIssueIf(text.Some? && ByteLength(text.value) > MAX_METADATA_TEXT_BYTES, code, owner);
    }

    method ValidateDependencies(dependsOn: seq<ObjectKey>, code: string, owner: ObjectKey)
      requires Files(objects)
      modifies this`issues
      ensures Adds(old(issues), issues, !DependenciesOk(objects.Values, dependsOn))
    {
      for i := 0 to |dependsOn|
        invariant Adds(old(issues), issues, exists d :: d in dependsOn[..i] && d !in objects.Values)
      {
        RequireAny(dependsOn[i], owner);
        PrefixLast(dependsOn, i);
      }
      WholePrefix(dependsOn);
      var repeated := HasDuplicateKeys(dependsOn);
      AddIssueIf(repeated, code, owner);
    }

    // ----------------------------------------------------- one object at a time

    method ValidateHeader(s: SchemaSnapshot)
      modifies this`issues
      ensures Adds(old(issues), issues, !HeaderOk(s))
    {
      AddIssueIf(Blank(s.sourceKind), "snapshot_source_missing", s.database.key);
      AddIssueIf(Blank(s.connectionAlias), "connection_alias_missing", s.database.key);
      AddIssueIf(s.capabilities.sourceKind != s.sourceKind, "capability_source_mismatch", s.database.key);
    }

    method ValidateDatabase(alias: string, d: DatabaseObject)
      modifies this`issues
      ensures Adds(old(issues), issues, !DatabaseOk(alias, d))
    {
      ValidateIdentity(d.key, alias, d.name, None);
      AddIssueIf(d.key.database != d.name, "database_identity_mismatch", d.key);
    }

    method ValidateSchema(alias: string, o: SchemaObject)
      requires Files(objects)
      modifies this`issues
      ensures Adds(old(issues), issues, !SchemaOk(objects.Values, alias, o))
    {
      RequireKind(o.databaseKey, Database, o.key);
      ValidateIdentity(o.key, alias, o.name, None);
      AddIssueIf(o.key.schema != o.name, "schema_identity_mismatch", o.key);
    }

    method ValidateTable(alias: string, t: TableObject)
      requires Files(objects)
      modifies this`issues
      ensures Adds(old(issues), issues, !TableOk(objects.Values, alias, t))
    {
      RequireKind(t.schemaKey, Schema, t.key);
      ValidateIdentity(t.key, alias, t.name, None);
      AddIssueIf(t.kind == Temporary && t.key.schema == [], "invalid_table_scope", t.key);
    }

    method ValidateColumn(alias: string, c: ColumnObject)
      requires Files(objects)
      modifies this`issues
      ensures Adds(old(issues), issues, !ColumnOk(objects.Values, alias, c))
    {
      RequireKind(c.tableKey, Table, c.key);
      RequireChildOf(c.key, c.tableKey, c.key);
      ValidateIdentity(c.key, alias, c.tableKey.objectName, Some(c.name));
      AddIssueIf(c.ordinalPosition == 0, "invalid_column_ordinal", c.key);
      ValidateBoundedText(c.defaultValue, "column_default_too_large", c.key);
    }

    method ValidateConstraintKind(c: ConstraintObject)
      requires Files(objects)
      modifies this`issues
      ensures Adds(old(issues), issues, !ConstraintKindOk(objects.Values, c))
    {
      match c.kind {
        case PrimaryKeyRule =>
          AddIssueIf(c.columns == [], "constraint_columns_missing", c.key);
          AddIssueIf(c.referencedTableKey != None
                     || c.referencedColumns != [], "unexpected_constraint_reference", c.key);
        case UniqueRule =>
          AddIssueIf(c.columns == [], "constraint_columns_missing", c.key);
          AddIssueIf(c.referencedTableKey != None
                     || c.referencedColumns != [], "unexpected_constraint_reference", c.key);
        case ForeignKeyRule =>
          AddIssueIf(c.columns == [], "foreign_key_columns_missing", c.key);
          match c.referencedTableKey {
            case Some(table) =>
              RequireKind(table, Table, c.key);
              RequireColumnsOf(c.referencedColumns, table, c.key);
            case None => AddIssue("foreign_key_target_missing", c.key);
          }
          AddIssueIf(|c.columns| != |c.referencedColumns|, "foreign_key_cardinality_mismatch", c.key);
        case CheckRule =>
          AddIssueIf(NoneOrBlank(c.expression), "check_expression_missing", c.key);
      }
    }

    method ValidateConstraint(alias: string, c: ConstraintObject)
      requires Files(objects)
      modifies this`issues
      ensures Adds(old(issues), issues, !ConstraintOk(objects.Values, alias, c))
    {
      RequireKind(c.tableKey, Table, c.key);
      RequireChildOf(c.key, c.tableKey, c.key);
      ValidateIdentity(c.key, alias, c.tableKey.objectName, Some(c.name));
      RequireColumnsOf(c.columns, c.tableKey, c.key);
      var repeated := HasDuplicateKeys(c.columns);
      AddIssueIf(repeated, "duplicate_constraint_column", c.key);
      repeated := HasDuplicateKeys(c.referencedColumns);
      AddIssueIf(repeated, "duplicate_constraint_reference_column", c.key);
      ValidateBoundedText(c.expression, "constraint_expression_too_large", c.key);
      ValidateConstraintKind(c);
    }

    method ValidateIndex(alias: string, o: IndexObject)
      requires Files(objects)
      modifies this`issues
      ensures Adds(old(issues), issues, !IndexOk(objects.Values, alias, o))
    {
      RequireKind(o.tableKey, Table, o.key);
      RequireChildOf(o.key, o.tableKey, o.key);
      ValidateIdentity(o.key, alias, o.tableKey.objectName, Some(o.name));
      RequireColumnsOf(o.columns, o.tableKey, o.key);
      var repeated := HasDuplicateKeys(o.columns);
      AddIssueIf(repeated, "duplicate_index_column", o.key);
      AddIssueIf(o.columns == [] && NoneOrBlank(o.expression), "index_definition_missing", o.key);
      ValidateBoundedText(o.filter, "index_predicate_too_large", o.key);
      ValidateBoundedText(o.expression, "index_expression_too_large", o.key);
    }

    method ValidateView(alias: string, v: ViewObject)
      requires Files(objects)
      modifies this`issues
      ensures Adds(old(issues), issues, !ViewOk(objects.Values, alias, v))
    {
      RequireKind(v.schemaKey, Schema, v.key);
      ValidateIdentity(v.key, alias, v.name, None);
      ValidateDependencies(v.dependsOn, "duplicate_view_dependency", v.key);
      ValidateBoundedText(v.definition, "view_definition_too_large", v.key);
    }

    method ValidateTrigger(alias: string, t: TriggerObject)
      requires Files(objects)
      modifies this`issues
      ensures Adds(old(issues), issues, !TriggerOk(objects.Values, alias, t))
    {
      RequireOneOf(t.tableKey, {Table, View}, t.key);
      RequireChildOf(t.key, t.tableKey, t.key);
      ValidateIdentity(t.key, alias, t.tableKey.objectName, Some(t.name));
      AddIssueIf(t.events == [], "trigger_events_missing", t.key);
      var repeated := HasDuplicateStrings(t.events);
      AddIssueIf(repeated, "duplicate_trigger_event", t.key);
      ValidateBoundedText(t.definition, "trigger_definition_too_large", t.key);
      if t.executesRoutineKey.Some? { RequireKind(t.executesRoutineKey.value, Routine, t.key); }
    }

    method ValidateRoutine(alias: string, r: RoutineObject)
      requires Files(objects)
      modifies this`issues
      ensures Adds(old(issues), issues, !RoutineOk(objects.Values, alias, r))
    {
      RequireKind(r.schemaKey, Schema, r.key);
      ValidateIdentity(r.key, alias, r.name, r.key.subObject);
      ValidateDependencies(r.dependsOn, "duplicate_routine_dependency", r.key);
      ValidateBoundedText(r.definition, "routine_definition_too_large", r.key);
    }

    // ------------------------------------------------------------- the walk

    method ValidateColumns(alias: string, columns: seq<ColumnObject>)
      requires Files(objects)
      modifies this`issues
      ensures Adds(old(issues), issues, !ColumnsOk(objects.Values, alias, columns))
    {
      var seen: set<(string, nat)> := {};
      for i := 0 to |columns|
        invariant seen == Places(columns[..i])
        invariant Adds(old(issues), issues, !ColumnsOk(objects.Values, alias, columns[..i]))
      {
        seen := ValidateNextColumn(alias, columns[..i], columns[i], seen, old(issues));
        PrefixLast(columns, i);
      }
      WholePrefix(columns);
    }

    method ValidateNextColumn(alias: string, ghost before: seq<ColumnObject>, column: ColumnObject,
                              seen0: set<(string, nat)>,
                              ghost start: seq<Issue>)
      returns (seen: set<(string, nat)>)
      requires Files(objects) && seen0 == Places(before)
      requires Adds(start, issues, !ColumnsOk(objects.Values, alias, before))
      modifies this`issues
      ensures seen == Places(before + [column])
      ensures Adds(start, issues, !ColumnsOk(objects.Values, alias, before + [column]))
    {
      ValidateColumn(alias, column);
      AddIssueIf(Place(column) in seen0, "duplicate_column_ordinal", column.key);
      ColumnsOkLonger(objects.Values, alias, before, column);
      seen := seen0 + {Place(column)};
    }

    method ValidateSchemas(alias: string, items: seq<SchemaObject>)
      requires Files(objects)
      modifies this`issues
      ensures Adds(old(issues), issues, !forall o :: o in items ==> SchemaOk(objects.Values, alias, o))
    {
      for i := 0 to |items|
        invariant Adds(old(issues), issues, !forall o :: o in items[..i] ==> SchemaOk(objects.Values, alias, o))
      {
        ValidateSchema(alias, items[i]);
        PrefixLast(items, i);
      }
      WholePrefix(items);
    }

    method ValidateTables(alias: string, items: seq<TableObject>)
      requires Files(objects)
      modifies this`issues
      ensures Adds(old(issues), issues, !forall o :: o in items ==> TableOk(objects.Values, alias, o))
    {
      for i := 0 to |items|
        invariant Adds(old(issues), issues, !forall o :: o in items[..i] ==> TableOk(objects.Values, alias, o))
      {
        ValidateTable(alias, items[i]);
        PrefixLast(items, i);
      }
      WholePrefix(items);
    }

    method ValidateConstraints(alias: string, items: seq<ConstraintObject>)
      requires Files(objects)
      modifies this`issues
      ensures Adds(old(issues), issues, !forall o :: o in items ==> ConstraintOk(objects.Values, alias, o))
    {
      for i := 0 to |items|
        invariant Adds(old(issues), issues, !forall o :: o in items[..i] ==> ConstraintOk(objects.Values, alias, o))
      {
        ValidateConstraint(alias, items[i]);
        PrefixLast(items, i);
      }
      WholePrefix(items);
    }

    method ValidateIndexes(alias: string, items: seq<IndexObject>)
      requires Files(objects)
      modifies this`issues
      ensures Adds(old(issues), issues, !forall o :: o in items ==> IndexOk(objects.Values, alias, o))
    {
      for i := 0 to |items|
        invariant Adds(old(issues), issues, !forall o :: o in items[..i] ==> IndexOk(objects.Values, alias, o))
      {
        ValidateIndex(alias, items[i]);
        PrefixLast(items, i);
      }
      WholePrefix(items);
    }

    method ValidateViews(alias: string, items: seq<ViewObject>)
      requires Files(objects)
      modifies this`issues
      ensures Adds(old(issues), issues, !forall o :: o in items ==> ViewOk(objects.Values, alias, o))
    {
      for i := 0 to |items|
        invariant Adds(old(issues), issues, !forall o :: o in items[..i] ==> ViewOk(objects.Values, alias, o))
      {
        ValidateView(alias, items[i]);
        PrefixLast(items, i);
      }
      WholePrefix(items);
    }

    method ValidateTriggers(alias: string, items: seq<TriggerObject>)
      requires Files(objects)
      modifies this`issues
      ensures Adds(old(issues), issues, !forall o :: o in items ==> TriggerOk(objects.Values, alias, o))
    {
      for i := 0 to |items|
        invariant Adds(old(issues), issues, !forall o :: o in items[..i] ==> TriggerOk(objects.Values, alias, o))
      {
        ValidateTrigger(alias, items[i]);
        PrefixLast(items, i);
      }
      WholePrefix(items);
    }

    method ValidateRoutines(alias: string, items: seq<RoutineObject>)
      requires Files(objects)
      modifies this`issues
      ensures Adds(old(issues), issues, !forall o :: o in items ==> RoutineOk(objects.Values, alias, o))
    {
      for i := 0 to |items|
        invariant Adds(old(issues), issues, !forall o :: o in items[..i] ==> RoutineOk(objects.Values, alias, o))
      {
        ValidateRoutine(alias, items[i]);
        PrefixLast(items, i);
      }
      WholePrefix(items);
    }
  }

  /** `has_duplicate_keys`: fills a set of printed keys. */
  method HasDuplicateKeys(keys: seq<ObjectKey>) returns (repeated: bool)
    ensures repeated <==> !NoDuplicates(keys)
  {
    var seen: set<string> := {};
    for i := 0 to |keys|
      invariant forall k :: Print(k) in seen <==> k in keys[..i]
      invariant NoDuplicates(keys[..i])
    {
      OneMore(keys[..i], keys[i]);
      PrefixLast(keys, i);
      if Print(keys[i]) in seen {
        assert keys[i] in keys[..i];
        return true;
      }
      forall k ensures Print(k) == Print(keys[i]) <==> k == keys[i] {
        if Print(k) == Print(keys[i]) { PrintInjective(k, keys[i]); }
      }
      seen := seen + {Print(keys[i])};
    }
    WholePrefix(keys);
    return false;
  }

  method HasDuplicateStrings(values: seq<string>) returns (repeated: bool)
    ensures repeated <==> !NoDuplicates(values)
  {
    var seen: set<string> := {};
    for i := 0 to |values|
      invariant seen == set j | 0 <= j < i :: values[j]
      invariant NoDuplicates(values[..i])
    {
      if values[i] in seen { return true; }
      seen := seen + {values[i]};
    }
    WholePrefix(values);
    return false;
  }

  predicate EntriesAgree(entries: seq<Entry>) {
    NoDuplicates(KeysOf(entries)) && forall e :: e in entries ==> e.key.objectKind == e.kind
  }

  lemma EntriesLonger(entries: seq<Entry>, last: Entry)
    ensures EntriesAgree(entries + [last])
       <==> EntriesAgree(entries) && last.key.objectKind == last.kind && last.key !in KnownKeys(entries)
    ensures KnownKeys(entries + [last]) == KnownKeys(entries) + {last.key}
  {
    NoDuplicatesLonger(entries, last);
    assert forall e :: e in entries + [last] <==> e in entries || e == last;
  }

  lemma NoDuplicatesLonger(entries: seq<Entry>, last: Entry)
    ensures NoDuplicates(KeysOf(entries + [last])) <==> NoDuplicates(KeysOf(entries)) && last.key !in KnownKeys(entries)
  {
    var keys, longer := KeysOf(entries), KeysOf(entries + [last]);
    assert longer == keys + [last.key];
    assert last.key in KnownKeys(entries) <==> last.key in keys by {
      if last.key in KnownKeys(entries) {
        var e :| e in entries && e.key == last.key;
        var i :| 0 <= i < |entries| && entries[i] == e;
        assert keys[i] == last.key;
      }
      if last.key in keys {
        var i :| 0 <= i < |keys| && keys[i] == last.key;
        assert entries[i] in entries;
      }
    }
    OneMore(keys, last.key);
  }

  lemma OneMore<T>(s: seq<T>, x: T)
    ensures NoDuplicates(s + [x]) <==> NoDuplicates(s) && x !in s
  {
    var longer := s + [x];
    if NoDuplicates(longer) {
      forall i, j | 0 <= i < j < |s| ensures s[i] != s[j] { assert longer[i] != longer[j]; }
      forall i | 0 <= i < |s| ensures s[i] != x { assert longer[i] != longer[|s|]; }
    }
  }

  function Place(c: ColumnObject): (string, nat) { (Print(c.tableKey), c.ordinalPosition) }

  function Places(columns: seq<ColumnObject>): set<(string, nat)> { set c | c in columns :: Place(c) }

  predicate ColumnsOk(known: set<ObjectKey>, alias: string, columns: seq<ColumnObject>) {
    NoDuplicates(Ordinals(columns)) && forall c :: c in columns ==> ColumnOk(known, alias, c)
  }

  lemma ColumnsOkLonger(known: set<ObjectKey>, alias: string, columns: seq<ColumnObject>, last: ColumnObject)
    ensures ColumnsOk(known, alias, columns + [last])
       <==> ColumnsOk(known, alias, columns) && ColumnOk(known, alias, last) && Place(last) !in Places(columns)
    ensures Places(columns + [last]) == Places(columns) + {Place(last)}
  {
    OrdinalsLonger(columns, last);
    assert forall c :: c in columns + [last] <==> c in columns || c == last;
  }

  lemma OrdinalsLonger(columns: seq<ColumnObject>, last: ColumnObject)
    ensures NoDuplicates(Ordinals(columns + [last]))
            <==> NoDuplicates(Ordinals(columns)) && Place(last) !in Places(columns)
  {
    var places, place := Ordinals(columns), (last.tableKey, last.ordinalPosition);
    assert Ordinals(columns + [last]) == places + [place];
    OneMore(places, place);
    if Place(last) in Places(columns) {
      var c :| c in columns && Place(c) == Place(last);
      PrintInjective(c.tableKey, last.tableKey);
      var j :| 0 <= j < |columns| && columns[j] == c;
      assert places[j] == place;
    }
    if place in places {
      var j :| 0 <= j < |places| && places[j] == place;
      assert columns[j] in columns && Place(columns[j]) == Place(last);
    }
  }

  /** The validator accepts exactly the well-formed snapshots. */
  method ValidateSchemaSnapshot(s: SchemaSnapshot) returns (issues: seq<Issue>)
    ensures issues == [] <==> WellFormed(s)
  {
    var validator := new SnapshotValidator();
    validator.RegisterAll(Entries(s));
    ghost var known := validator.objects.Values;
    validator.ValidateHeader(s);
    validator.ValidateRegisteredScope(s.connectionAlias, s.database.key);
    ScopeOfEntries(s, known);
    validator.ValidateDatabase(s.connectionAlias, s.database);
    validator.ValidateSchemas(s.connectionAlias, s.schemas);
    validator.ValidateTables(s.connectionAlias, s.tables);
    validator.ValidateColumns(s.connectionAlias, s.columns);
    validator.ValidateConstraints(s.connectionAlias, s.constraints);
    validator.ValidateIndexes(s.connectionAlias, s.indexes);
    validator.ValidateViews(s.connectionAlias, s.views);
    validator.ValidateTriggers(s.connectionAlias, s.triggers);
    validator.ValidateRoutines(s.connectionAlias, s.routines);
    issues := validator.issues;
  }

  lemma ScopeOfEntries(s: SchemaSnapshot, known: set<ObjectKey>)
    requires known == KnownKeys(Entries(s))
    ensures (exists k :: k in known && !InScope(k, s.connectionAlias, s.database.key))
       <==> !forall e :: e in Entries(s) ==> InScope(e.key, s.connectionAlias, s.database.key)
  {
    if !forall e :: e in Entries(s) ==> InScope(e.key, s.connectionAlias, s.database.key) {
      var e :| e in Entries(s) && !InScope(e.key, s.connectionAlias, s.database.key);
      assert e.key in known;
    }
  }
}
