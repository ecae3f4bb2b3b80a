/** When the two descriptions of a table agree, in terms of what the snapshot lists
    (crates/database-memory-cli/src/metadata.rs). */
module DescriptionConditions {
  import opened Wrappers
  import opened Lists
  import opened ObjectKeys
  import opened SchemaModel
  import opened TextRules
  import opened SnapshotRules
  import opened CanonicalRules
  import opened GraphModel
  import opened Projection
  import opened GraphBuilder
  import opened TableDescriptions
  import opened GraphDescription
  import opened Inventory
  import opened InventoryFacts
  import opened InventoryDependents
  import opened InventoryTheorem
  import opened AliasExactness

  /** A dependency list names the table or one of its columns. */
  ghost predicate Reads(s: SchemaSnapshot, dependsOn: seq<ObjectKey>, table: ObjectKey) {
    exists d :: d in dependsOn && ReadsAs(s, d, table)
  }

  ghost predicate ReadsAs(s: SchemaSnapshot, d: ObjectKey, table: ObjectKey) {
    || (d == table && d.objectKind == Table)
    || (d.objectKind == Column && exists c :: c in s.columns && c.key == d && c.tableKey == table)
  }

  /** No routine that reads the table has an empty signature, and no trigger of the table an empty name. */
  ghost predicate DependentsNamed(s: SchemaSnapshot, table: ObjectKey) {
    && (forall r :: r in s.routines && Reads(s, r.dependsOn, table) ==> r.key.subObject != Some([]))
    && (forall t :: t in s.triggers && t.tableKey == table ==> t.name != [])
  }

  // ------------------------------------------------------------------- keys

  lemma ObjectsIdentified(s: SchemaSnapshot)
    requires WellFormed(s)
    ensures !Blank(s.connectionAlias)
    ensures (forall t :: t in s.tables ==> t.key.subObject == None)
            && (forall v :: v in s.views ==> v.key.subObject == None)
    ensures forall t :: t in s.triggers ==> t.key.subObject == Some(t.name)
  {
    hide EntriesOk;
    var known := KnownKeys(Entries(s));
    forall t | t in s.tables ensures t.key.subObject == None { assert TableOk(known, s.connectionAlias, t); }
    forall v | v in s.views ensures v.key.subObject == None { assert ViewOk(known, s.connectionAlias, v); }
    forall t | t in s.triggers ensures t.key.subObject == Some(t.name) {
      assert TriggerOk(known, s.connectionAlias, t);
    }
  }

  lemma OwnKeysInScope(s: SchemaSnapshot)
    requires WellFormed(s)
    ensures (forall t :: t in s.tables ==> InScope(t.key, s.connectionAlias, s.database.key))
    ensures (forall v :: v in s.views ==> InScope(v.key, s.connectionAlias, s.database.key))
    ensures (forall r :: r in s.routines ==> InScope(r.key, s.connectionAlias, s.database.key))
    ensures (forall t :: t in s.triggers ==> InScope(t.key, s.connectionAlias, s.database.key))
  {
    hide InScope, ObjectsOk;
    forall i | 0 <= i < |s.tables| ensures InScope(s.tables[i].key, s.connectionAlias, s.database.key) {
      assert TableEntries(s.tables)[i] in Entries(s);
    }
    forall i | 0 <= i < |s.views| ensures InScope(s.views[i].key, s.connectionAlias, s.database.key) {
      assert ViewEntries(s.views)[i] in Entries(s);
    }
    forall i | 0 <= i < |s.routines| ensures InScope(s.routines[i].key, s.connectionAlias, s.database.key) {
      assert RoutineEntries(s.routines)[i] in Entries(s);
    }
    forall i | 0 <= i < |s.triggers| ensures InScope(s.triggers[i].key, s.connectionAlias, s.database.key) {
      assert TriggerEntries(s.triggers)[i] in Entries(s);
    }
  }

  lemma ReasonInScope(s: SchemaSnapshot, table: string, reason: Reason, m: Mention)
    requires WellFormed(s) && Explains(s, table, reason, m)
    ensures InScope(ReasonKey(reason), s.connectionAlias, s.database.key)
  {
    hide WellFormed, InScope, About;
    OwnKeysInScope(s);
  }

  /** Apart from the source kind `v2`, a mention is read as what it is unless the key of its dependent
      has an empty sub-object, and then it cannot be read. */
  lemma MentionReads(s: SchemaSnapshot, table: string, reason: Reason, m: Mention)
    requires WellFormed(s) && s.database.key.sourceKind != "v2" && Explains(s, table, reason, m)
    ensures Reread(m) == if ReasonKey(reason).subObject == Some([]) then None else Some(m)
  {
    hide WellFormed, InScope, Print, Parse, Parts, Blank;
    var key := ReasonKey(reason);
    ReasonInScope(s, table, reason, m);
    ReasonOfMention(s, table, reason, m);
    KindMentioned(s, table, reason, m);
    SourceOfScope(key, s.connectionAlias, s.database.key);
    AliasOfHeader(s);
    ScopedParts(key, s.connectionAlias, s.database.key);
    ParseOwnPrint(key);
  }

  lemma SourceOfScope(k: ObjectKey, alias: string, database: ObjectKey)
    requires InScope(k, alias, database) && database.sourceKind != "v2"
    ensures OwnSource(k)
  {
  }

  lemma AliasOfHeader(s: SchemaSnapshot)
    requires WellFormed(s)
    ensures !Blank(s.connectionAlias)
  {
    hide EntriesOk, ObjectsOk;
  }

  lemma KindMentioned(s: SchemaSnapshot, table: string, reason: Reason, m: Mention)
    requires Explains(s, table, reason, m)
    ensures m.dependent.kind == match reason case ViewDepends(_, _) => KindText(View)
                                             case RoutineDepends(_, _) => KindText(Routine)
                                             case TriggerFires(_) => KindText(Trigger)
  {
    hide About;
  }

  lemma TableKeyReads(s: SchemaSnapshot, table: TableObject)
    requires WellFormed(s) && s.database.key.sourceKind != "v2" && table in s.tables
    ensures Parse(Print(table.key)) == Some(table.key) && table.key.objectKind == Table
            && table.key.objectName == table.name
  {
    hide Print, Parse, Parts, Blank, InScope, WellFormed;
    OwnKeysInScope(s);
    ObjectsIdentified(s);
    SourceOfScope(table.key, s.connectionAlias, s.database.key);
    ScopedParts(table.key, s.connectionAlias, s.database.key);
    ParseOwnPrint(table.key);
    TableNamed(s, table);
  }

  lemma TableNamed(s: SchemaSnapshot, table: TableObject)
    requires WellFormed(s) && table in s.tables
    ensures table.key.objectKind == Table && table.key.objectName == table.name
  {
    assert TableOk(KnownKeys(Entries(s)), s.connectionAlias, table);
    var i :| 0 <= i < |s.tables| && s.tables[i] == table;
    assert TableEntries(s.tables)[i] in Entries(s);
  }

  // ---------------------------------------------------------------- reasons

  lemma RoutineReasons(s: SchemaSnapshot, table: ObjectKey, r: RoutineObject, d: ObjectKey) returns (m: Mention)
    requires r in s.routines && d in r.dependsOn && ReadsAs(s, d, table)
    ensures Explains(s, Print(table), RoutineDepends(r, d), m)
  {
    m := Mention(RoutineDependent(r), if d.objectKind == Column then Some(Print(d)) else None);
  }

  lemma ReasonReads(s: SchemaSnapshot, table: ObjectKey, d: ObjectKey, column: Option<string>)
    requires About(s, d, Print(table), column)
    ensures ReadsAs(s, d, table)
  {
    hide Print;
    if d.objectKind == Table {
      PrintInjective(d, table);
    } else {
      var c :| c in s.columns && c.key == d && Print(c.tableKey) == Print(table);
      PrintInjective(c.tableKey, table);
    }
  }

  /** In a table whose dependents are all named every mention is read as what it is. */
  lemma NamedAreRead(s: SchemaSnapshot, table: ObjectKey, reason: Reason, m: Mention)
    requires WellFormed(s) && s.database.key.sourceKind != "v2" && DependentsNamed(s, table)
    requires Explains(s, Print(table), reason, m)
    ensures Reread(m) == Some(m)
  {
    hide WellFormed, Reread, Print, ReadsAs, About;
    MentionReads(s, Print(table), reason, m);
    ObjectsIdentified(s);
    match reason
    case ViewDepends(v, d) =>
    case RoutineDepends(r, d) =>
      ReasonReads(s, table, d, m.column);
      assert Reads(s, r.dependsOn, table);
    case TriggerFires(t) =>
      PrintInjective(t.tableKey, table);
  }

  /** Any other table has a dependent that cannot be read. */
  lemma UnnamedGiveUp(s: SchemaSnapshot, table: TableObject)
    requires WellFormed(s) && s.database.key.sourceKind != "v2" && table in s.tables && !DependentsNamed(s, table.key)
    ensures !Rereadable(s, Print(table.key))
  {
    hide WellFormed, Reread, ReadsAs;
    ObjectsIdentified(s);
    TableNamed(s, table);
    if r :| r in s.routines && Reads(s, r.dependsOn, table.key) && r.key.subObject == Some([]) {
      var d :| d in r.dependsOn && ReadsAs(s, d, table.key);
      var m := RoutineReasons(s, table.key, r, d);
      MentionReads(s, Print(table.key), RoutineDepends(r, d), m);
      assert Explained(s, Print(table.key), m);
    } else {
      var t :| t in s.triggers && t.tableKey == table.key && t.name == [];
      var reason, m := TriggerReason(s, Print(table.key), t);
      MentionReads(s, Print(table.key), TriggerFires(t), m);
      assert Explained(s, Print(table.key), m);
    }
  }

  // ---------------------------------------------------------------- the result

  lemma RecognisedWhen(s: SchemaSnapshot, table: TableObject)
    requires WellFormed(s) && s.database.key.sourceKind != "v2" && table in s.tables
    ensures Recognised(s, table) <==> DependentsNamed(s, table.key)
    ensures !DependentsNamed(s, table.key) ==> !Rereadable(s, Print(table.key))
  {
    hide WellFormed, Reread, Print, Parse, SnapshotMentions, DependentsNamed, Explains;
    TableKeyReads(s, table);
    MentionsAreExplained(s, Print(table.key));
    if DependentsNamed(s, table.key) {
      forall m | m in SnapshotMentions(s, Print(table.key)) ensures Reread(m) == Some(m) {
        var reason :| Explains(s, Print(table.key), reason, m);
        NamedAreRead(s, table.key, reason, m);
      }
    } else {
      UnnamedGiveUp(s, table);
    }
  }

  /** For a source kind other than `v2`, the walk describes a table as the index does if and only if no
      routine that reads the table or a column of it has an empty signature and no trigger of the table
      an empty name; for any other table it gives up, while the index still answers. */
  lemma DescriptionsAgreeWhen(g: Graph, snapshotKey: string, s: CanonicalSchemaSnapshot, table: TableObject)
    requires Indexed(g, snapshotKey, s) && s.schema.database.key.sourceKind != "v2" && table in s.schema.tables
    ensures Described(g, snapshotKey, Print(table.key)) == Some(IndexedDescription(snapshotKey, s.schema, table))
            <==> DependentsNamed(s.schema, table.key)
    ensures !DependentsNamed(s.schema, table.key) ==> Described(g, snapshotKey, Print(table.key)).None?
  {
    hide Indexed, CanonicalWellFormed, Recognised, Rereadable, DependentsNamed, Described, IndexedDescription;
    IndexedParts(g, snapshotKey, s);
    SchemaPart(s);
    RecognisedWhen(s.schema, table);
    WalkAgreesWhen(g, snapshotKey, s, table);
  }
}
