/** A well-formed snapshot stays well formed under another connection alias
    (snapshot_validation.rs, canonical_validation.rs). */
module AliasValidity {
  import opened Wrappers
  import opened Lists
  import opened ObjectKeys
  import opened SchemaModel
  import opened TextRules
  import opened SnapshotRules
  import opened CanonicalRules
  import opened GraphModel
  import opened GraphBuilder
  import opened EdgeTexts
  import opened Projection
  import opened AliasRename
  import opened AliasDiff

  function RenameEntry(alias: string): Entry -> Entry { (e: Entry) => Entry(RenameKey(e.key, alias), e.kind) }

  ghost function RenameKnown(known: set<ObjectKey>, alias: string): set<ObjectKey> {
    set k | k in known :: RenameKey(k, alias)
  }

  ghost predicate Under(keys: seq<ObjectKey>, alias: string) { forall k :: k in keys ==> k.connectionAlias == alias }

  /** Keys under one alias stay apart when it is renamed. */
  lemma RenamedApart(keys: seq<ObjectKey>, from: string, alias: string)
    requires Under(keys, from) && NoDuplicates(keys)
    ensures NoDuplicates(RenameKeys(keys, alias))
  {
    forall i, j | 0 <= i < j < |keys| ensures RenameKeys(keys, alias)[i] != RenameKeys(keys, alias)[j] {
      assert keys[i] in keys && keys[j] in keys;
      assert keys[i] == RenameKey(RenameKeys(keys, alias)[i], from)
             && keys[j] == RenameKey(RenameKeys(keys, alias)[j], from);
    }
  }

  // -------------------------------------------------------------- the entries

  lemma EntriesRenamed(s: SchemaSnapshot, t: CanonicalSchemaSnapshot, alias: string)
    requires t.schema == s
    ensures Entries(Renamed(t, alias).schema) == MapSeq(RenameEntry(alias), Entries(s))
  {
    var f, r := RenameEntry(alias), Renamed(t, alias).schema;
    assert [Entry(r.database.key, Database)] == MapSeq(f, [Entry(s.database.key, Database)]);
    assert SchemaEntries(r.schemas) == MapSeq(f, SchemaEntries(s.schemas));
    assert TableEntries(r.tables) == MapSeq(f, TableEntries(s.tables));
    assert ColumnEntries(r.columns) == MapSeq(f, ColumnEntries(s.columns));
    assert ConstraintEntries(r.constraints) == MapSeq(f, ConstraintEntries(s.constraints));
    assert IndexEntries(r.indexes) == MapSeq(f, IndexEntries(s.indexes));
    assert ViewEntries(r.views) == MapSeq(f, ViewEntries(s.views));
    assert TriggerEntries(r.triggers) == MapSeq(f, TriggerEntries(s.triggers));
    assert RoutineEntries(r.routines) == MapSeq(f, RoutineEntries(s.routines));
    NineMapped(f, [Entry(s.database.key, Database)], SchemaEntries(s.schemas), TableEntries(s.tables),
               ColumnEntries(s.columns),
               ConstraintEntries(s.constraints), IndexEntries(s.indexes), ViewEntries(s.views),
               TriggerEntries(s.triggers), RoutineEntries(s.routines));
  }

  lemma JoinedMapped(f: Entry -> Entry, a: seq<Entry>, b: seq<Entry>)
    ensures MapSeq(f, a + b) == MapSeq(f, a) + MapSeq(f, b)
  {
  }

  lemma NineMapped(x: Entry -> Entry, a: seq<Entry>, b: seq<Entry>, c: seq<Entry>, d: seq<Entry>, e: seq<Entry>,
                   f: seq<Entry>, g: seq<Entry>,
                   h: seq<Entry>, i: seq<Entry>)
    ensures MapSeq(x, a + b + c + d + e + f + g + h + i)
         == MapSeq(x, a) + MapSeq(x, b) + MapSeq(x, c) + MapSeq(x, d) + MapSeq(x, e) + MapSeq(x, f) + MapSeq(x, g)
             + MapSeq(x, h) + MapSeq(x, i)
  {
    hide MapSeq;
    JoinedMapped(x, a, b);
    JoinedMapped(x, a + b, c);
    JoinedMapped(x, a + b + c, d);
    JoinedMapped(x, a + b + c + d, e);
    JoinedMapped(x, a + b + c + d + e, f);
    JoinedMapped(x, a + b + c + d + e + f, g);
    JoinedMapped(x, a + b + c + d + e + f + g, h);
    JoinedMapped(x, a + b + c + d + e + f + g + h, i);
  }

  lemma AllEntriesRenamed(s: CanonicalSchemaSnapshot, alias: string)
    ensures AllEntries(Renamed(s, alias)) == MapSeq(RenameEntry(alias), AllEntries(s))
  {
    hide Entries;
    EntriesRenamed(s.schema, s, alias);
    assert MetadataEntries(Renamed(s, alias).metadata.objects)
           == MapSeq(RenameEntry(alias), MetadataEntries(s.metadata.objects));
    JoinedMapped(RenameEntry(alias), Entries(s.schema), MetadataEntries(s.metadata.objects));
  }

  lemma RenamedEntries(entries: seq<Entry>, renamed: seq<Entry>, from: string, alias: string)
    requires renamed == MapSeq(RenameEntry(alias), entries)
             && forall e :: e in entries ==> e.key.connectionAlias == from
    ensures KnownKeys(renamed) == RenameKnown(KnownKeys(entries), alias)
    ensures NoDuplicates(KeysOf(entries)) ==> NoDuplicates(KeysOf(renamed))
  {
    assert KeysOf(renamed) == RenameKeys(KeysOf(entries), alias);
    forall k | k in KeysOf(entries) ensures k.connectionAlias == from {
      var i :| 0 <= i < |entries| && KeysOf(entries)[i] == k;
      assert entries[i] in entries;
    }
    if NoDuplicates(KeysOf(entries)) { RenamedApart(KeysOf(entries), from, alias); }
    forall k ensures k in KnownKeys(renamed) <==> k in RenameKnown(KnownKeys(entries), alias) {
      if k in KnownKeys(renamed) {
        var e :| e in renamed && e.key == k;
        var i :| 0 <= i < |renamed| && renamed[i] == e;
        assert entries[i] in entries && k == RenameKey(entries[i].key, alias);
      }
      if k in RenameKnown(KnownKeys(entries), alias) {
        var e :| e in entries && RenameKey(e.key, alias) == k;
        var i :| 0 <= i < |entries| && entries[i] == e;
        assert renamed[i].key == k && renamed[i] in renamed;
      }
    }
  }

  // -------------------------------------------------------------- the objects

  ghost predicate KnownUnder(known: set<ObjectKey>, alias: string) {
    forall k :: k in known ==> k.connectionAlias == alias
  }

  lemma OneOfRenamed(known: set<ObjectKey>, k: ObjectKey, kinds: set<ObjectKind>, alias: string)
    requires OneOf(known, k, kinds)
    ensures OneOf(RenameKnown(known, alias), RenameKey(k, alias), kinds)
  {
  }

  lemma ColumnsOfRenamed(known: set<ObjectKey>, columns: seq<ObjectKey>, table: ObjectKey, from: string, alias: string)
    requires KnownUnder(known, from) && ColumnsOf(known, columns, table)
    ensures ColumnsOf(RenameKnown(known, alias), RenameKeys(columns, alias), RenameKey(table, alias))
            && Under(columns, from)
  {
    forall k | k in RenameKeys(columns, alias) ensures ColumnOf(RenameKnown(known, alias), k, RenameKey(table, alias)) {
      var i :| 0 <= i < |columns| && RenameKeys(columns, alias)[i] == k;
      assert ColumnOf(known, columns[i], table);
    }
    forall k | k in columns ensures k.connectionAlias == from { assert ColumnOf(known, k, table); }
  }

  lemma DependenciesRenamed(known: set<ObjectKey>, dependsOn: seq<ObjectKey>, from: string, alias: string)
    requires KnownUnder(known, from) && DependenciesOk(known, dependsOn)
    ensures DependenciesOk(RenameKnown(known, alias), RenameKeys(dependsOn, alias))
  {
    RenamedApart(dependsOn, from, alias);
  }

  lemma ConstraintRenamed(known: set<ObjectKey>, c: ConstraintObject, from: string, alias: string)
    requires KnownUnder(known, from) && ConstraintOk(known, from, c)
             && (c.kind == CheckRule ==> NoDuplicates(RenameKeys(c.referencedColumns, alias)))
    ensures ConstraintOk(RenameKnown(known, alias), alias, RenameConstraint(c, alias))
  {
    hide ColumnsOf, Fits, NoneOrBlank, RenameKnown, NoDuplicates;
    OneOfRenamed(known, c.tableKey, {Table}, alias);
    ColumnsOfRenamed(known, c.columns, c.tableKey, from, alias);
    RenamedApart(c.columns, from, alias);
    if c.kind == ForeignKeyRule {
      OneOfRenamed(known, c.referencedTableKey.value, {Table}, alias);
      ColumnsOfRenamed(known, c.referencedColumns, c.referencedTableKey.value, from, alias);
    }
    if c.kind != CheckRule { RenamedApart(c.referencedColumns, from, alias); }
  }

  lemma IndexRenamed(known: set<ObjectKey>, i: IndexObject, from: string, alias: string)
    requires KnownUnder(known, from) && IndexOk(known, from, i)
    ensures IndexOk(RenameKnown(known, alias), alias, RenameIndex(i, alias))
  {
    hide ColumnsOf, Fits, NoneOrBlank, RenameKnown, NoDuplicates;
    OneOfRenamed(known, i.tableKey, {Table}, alias);
    ColumnsOfRenamed(known, i.columns, i.tableKey, from, alias);
    RenamedApart(i.columns, from, alias);
  }

  lemma TriggerRenamed(known: set<ObjectKey>, t: TriggerObject, from: string, alias: string)
    requires TriggerOk(known, from, t)
    ensures TriggerOk(RenameKnown(known, alias), alias, RenameTrigger(t, alias))
  {
    hide RenameKnown, Fits, NoDuplicates;
    OneOfRenamed(known, t.tableKey, {Table, View}, alias);
    if t.executesRoutineKey.Some? { OneOfRenamed(known, t.executesRoutineKey.value, {Routine}, alias); }
  }

  lemma PlainObjectsRenamed(s: CanonicalSchemaSnapshot, known: set<ObjectKey>, alias: string)
    requires ObjectsOk(s.schema, known)
    ensures var t, after := Renamed(s, alias).schema, RenameKnown(known, alias);
            && DatabaseOk(alias, t.database) && (forall o :: o in t.schemas ==> SchemaOk(after, alias, o))
            && (forall o :: o in t.tables ==> TableOk(after, alias, o))
               && (forall o :: o in t.columns ==> ColumnOk(after, alias, o))
            && (forall o :: o in t.triggers ==> TriggerOk(after, alias, o))
  {
    var t, k, from := Renamed(s, alias).schema, RenameKnown(known, alias), s.schema.connectionAlias;
    forall i | 0 <= i < |t.schemas| ensures SchemaOk(k, alias, t.schemas[i]) {
      assert SchemaOk(known, from, s.schema.schemas[i]);
    }
    forall i | 0 <= i < |t.tables| ensures TableOk(k, alias, t.tables[i]) {
      assert TableOk(known, from, s.schema.tables[i]);
    }
    forall i | 0 <= i < |t.columns| ensures ColumnOk(k, alias, t.columns[i]) {
      assert ColumnOk(known, from, s.schema.columns[i]);
    }
    forall i | 0 <= i < |t.triggers| ensures TriggerOk(k, alias, t.triggers[i]) {
      TriggerRenamed(known, s.schema.triggers[i], from, alias);
    }
  }

  /** Renaming makes no two referenced columns of a check constraint alike. The validator looks at these
      columns for repeats only, so they may lie under other aliases. */
  ghost predicate ChecksApart(s: SchemaSnapshot, alias: string) {
    forall c :: c in s.constraints && c.kind == CheckRule ==> NoDuplicates(RenameKeys(c.referencedColumns, alias))
  }

  lemma ListedObjectsRenamed(s: CanonicalSchemaSnapshot, known: set<ObjectKey>, alias: string)
    requires ObjectsOk(s.schema, known) && KnownUnder(known, s.schema.connectionAlias) && ChecksApart(s.schema, alias)
    ensures var t, after := Renamed(s, alias).schema, RenameKnown(known, alias);
            && (forall o :: o in t.constraints ==> ConstraintOk(after, alias, o))
               && (forall o :: o in t.indexes ==> IndexOk(after, alias, o))
            && (forall o :: o in t.views ==> ViewOk(after, alias, o))
               && (forall o :: o in t.routines ==> RoutineOk(after, alias, o))
  {
    hide RenameKnown, ConstraintOk, IndexOk, Fits, DependenciesOk;
    var t, k, from := Renamed(s, alias).schema, RenameKnown(known, alias), s.schema.connectionAlias;
    forall i | 0 <= i < |t.constraints| ensures ConstraintOk(k, alias, t.constraints[i]) {
      assert s.schema.constraints[i] in s.schema.constraints;
      ConstraintRenamed(known, s.schema.constraints[i], from, alias);
    }
    forall i | 0 <= i < |t.indexes| ensures IndexOk(k, alias, t.indexes[i]) {
      IndexRenamed(known, s.schema.indexes[i], from, alias);
    }
    forall i | 0 <= i < |t.views| ensures ViewOk(k, alias, t.views[i]) {
      assert ViewOk(known, from, s.schema.views[i]);
      OneOfRenamed(known, s.schema.views[i].schemaKey, {Schema}, alias);
      DependenciesRenamed(known, s.schema.views[i].dependsOn, from, alias);
    }
    forall i | 0 <= i < |t.routines| ensures RoutineOk(k, alias, t.routines[i]) {
      assert RoutineOk(known, from, s.schema.routines[i]);
      OneOfRenamed(known, s.schema.routines[i].schemaKey, {Schema}, alias);
      DependenciesRenamed(known, s.schema.routines[i].dependsOn, from, alias);
    }
  }

  lemma OrdinalsRenamed(columns: seq<ColumnObject>, renamed: seq<ColumnObject>, from: string, alias: string)
    requires |renamed| == |columns| && forall i :: 0 <= i < |columns| ==> renamed[i] == RenameColumn(columns[i], alias)
    requires NoDuplicates(Ordinals(columns)) && forall c :: c in columns ==> c.tableKey.connectionAlias == from
    ensures NoDuplicates(Ordinals(renamed))
  {
    forall i, j | 0 <= i < j < |columns| ensures Ordinals(renamed)[i] != Ordinals(renamed)[j] {
      assert Ordinals(columns)[i] != Ordinals(columns)[j];
      assert columns[i] in columns && columns[j] in columns;
      assert columns[i].tableKey == RenameKey(renamed[i].tableKey, from)
             && columns[j].tableKey == RenameKey(renamed[j].tableKey, from);
    }
  }

  lemma TypedRenamed(s: CanonicalSchemaSnapshot, alias: string)
    requires WellFormed(s.schema) && !Blank(alias) && ChecksApart(s.schema, alias)
    requires forall e :: e in Entries(s.schema) ==> e.key.connectionAlias == s.schema.connectionAlias
    ensures WellFormed(Renamed(s, alias).schema)
  {
    hide Entries, ObjectsOk, Ordinals, Blank, Renamed;
    var from, known := s.schema.connectionAlias, KnownKeys(Entries(s.schema));
    var t := Renamed(s, alias).schema;
    EntriesRenamed(s.schema, s, alias);
    RenamedEntries(Entries(s.schema), Entries(t), from, alias);
    ScopeRenamed(s, alias);
    ObjectsRenamed(s, known, alias);
    TypedOrdinals(s, known, alias);
    HeaderRenamed(s, alias);
  }

  lemma HeaderRenamed(s: CanonicalSchemaSnapshot, alias: string)
    requires HeaderOk(s.schema) && !Blank(alias)
    ensures HeaderOk(Renamed(s, alias).schema) && Renamed(s, alias).schema.connectionAlias == alias
  {
  }

  lemma TypedOrdinals(s: CanonicalSchemaSnapshot, known: set<ObjectKey>, alias: string)
    requires ObjectsOk(s.schema, known) && NoDuplicates(Ordinals(s.schema.columns))
             && KnownUnder(known, s.schema.connectionAlias)
    ensures NoDuplicates(Ordinals(Renamed(s, alias).schema.columns))
  {
    forall c | c in s.schema.columns ensures c.tableKey.connectionAlias == s.schema.connectionAlias {
      assert ColumnOk(known, s.schema.connectionAlias, c);
    }
    OrdinalsRenamed(s.schema.columns, Renamed(s, alias).schema.columns, s.schema.connectionAlias, alias);
  }

  lemma ObjectsRenamed(s: CanonicalSchemaSnapshot, known: set<ObjectKey>, alias: string)
    requires ObjectsOk(s.schema, known) && KnownUnder(known, s.schema.connectionAlias) && ChecksApart(s.schema, alias)
    ensures ObjectsOk(Renamed(s, alias).schema, RenameKnown(known, alias))
  {
    hide DatabaseOk, SchemaOk, TableOk, ColumnOk, ConstraintOk, IndexOk, ViewOk, TriggerOk, RoutineOk, RenameKnown,
        KnownUnder, ChecksApart;
    PlainObjectsRenamed(s, known, alias);
    ListedObjectsRenamed(s, known, alias);
  }

  lemma ScopeRenamed(s: CanonicalSchemaSnapshot, alias: string)
    requires EntriesOk(s.schema)
    requires Entries(Renamed(s, alias).schema) == MapSeq(RenameEntry(alias), Entries(s.schema))
    ensures var t := Renamed(s, alias).schema;
            forall e :: e in Entries(t) ==> e.key.objectKind == e.kind && InScope(e.key, alias, t.database.key)
  {
    hide Entries, Blank;
    var t := Renamed(s, alias).schema;
    forall i | 0 <= i < |Entries(t)| ensures Entries(t)[i].key.objectKind == Entries(t)[i].kind
        && InScope(Entries(t)[i].key, alias, t.database.key) {
      assert Entries(s.schema)[i] in Entries(s.schema);
    }
  }

  // -------------------------------------------------------------- the metadata

  lemma MetadataObjectsRenamed(s: CanonicalSchemaSnapshot, known: set<ObjectKey>, alias: string)
    requires forall o :: o in s.metadata.objects ==> MetadataObjectOk(s.schema, o) && ParentOk(known, o)
    ensures var t := Renamed(s, alias);
            forall o :: o in t.metadata.objects ==>
                MetadataObjectOk(t.schema, o) && ParentOk(RenameKnown(known, alias), o)
  {
    hide PropertiesOk, Fits, Blank, PropertyNameOk, ParentKinds;
    var t := Renamed(s, alias);
    forall i | 0 <= i < |t.metadata.objects|
      ensures MetadataObjectOk(t.schema, t.metadata.objects[i])
              && ParentOk(RenameKnown(known, alias), t.metadata.objects[i])
    {
      assert s.metadata.objects[i] in s.metadata.objects
             && t.metadata.objects[i] == RenameMetadata(s.metadata.objects[i], alias);
    }
  }

  lemma AnnotationsRenamed(annotations: seq<ObjectAnnotation>, renamed: seq<ObjectAnnotation>, known: set<ObjectKey>,
                           from: string, alias: string)
    requires |renamed| == |annotations| && forall i :: 0 <= i < |annotations| ==>
             renamed[i] == RenameAnnotation(annotations[i], alias)
    requires KnownUnder(known, from) && NoDuplicates(AnnotatedKeys(annotations))
             && forall a :: a in annotations ==> AnnotationOk(known, a)
    ensures NoDuplicates(AnnotatedKeys(renamed)) && forall a :: a in renamed ==>
            AnnotationOk(RenameKnown(known, alias), a)
  {
    hide PropertiesOk, Fits;
    forall k | k in AnnotatedKeys(annotations) ensures k.connectionAlias == from {
      var i :| 0 <= i < |annotations| && AnnotatedKeys(annotations)[i] == k;
      assert AnnotationOk(known, annotations[i]);
    }
    RenamedApart(AnnotatedKeys(annotations), from, alias);
    assert AnnotatedKeys(renamed) == RenameKeys(AnnotatedKeys(annotations), alias);
    forall i | 0 <= i < |renamed| ensures AnnotationOk(RenameKnown(known, alias), renamed[i]) {
      assert AnnotationOk(known, annotations[i]);
    }
  }

  lemma RelationshipsRenamed(all: seq<MetadataRelationship>, renamed: seq<MetadataRelationship>, known: set<ObjectKey>,
                             from: string, alias: string)
    requires |renamed| == |all| && forall i :: 0 <= i < |all| ==> renamed[i] == RenameRelationship(all[i], alias)
    requires KnownUnder(known, from) && NoDuplicates(Identities(all))
             && forall r :: r in all ==> RelationshipOk(known, r)
    ensures NoDuplicates(Identities(renamed)) && forall r :: r in renamed ==>
            RelationshipOk(RenameKnown(known, alias), r)
  {
    hide PropertiesOk, PropertyNameOk, EndpointKindsOk;
    forall i | 0 <= i < |all| ensures RelationshipOk(RenameKnown(known, alias), renamed[i])
        && all[i] == RenameRelationship(renamed[i], from) {
      assert RelationshipOk(known, all[i]);
    }
    forall i, j | 0 <= i < j < |all| ensures Identities(renamed)[i] != Identities(renamed)[j] {
      assert Identities(all)[i] != Identities(all)[j];
      assert all[i] == RenameRelationship(renamed[i], from) && all[j] == RenameRelationship(renamed[j], from);
    }
  }

  /** Any alias that is not blank will do, unless it makes two referenced columns of a check constraint one. */
  lemma RenamedWellFormed(s: CanonicalSchemaSnapshot, alias: string)
    requires CanonicalWellFormed(s)
    ensures CanonicalWellFormed(Renamed(s, alias)) <==> !Blank(alias) && ChecksApart(s.schema, alias)
  {
    hide CanonicalWellFormed, Blank, ChecksApart, Renamed;
    if !Blank(alias) && ChecksApart(s.schema, alias) { RenamedStays(s, alias); }
    if CanonicalWellFormed(Renamed(s, alias)) { RenamedNeeds(s, alias); }
  }

  lemma RenamedNeeds(s: CanonicalSchemaSnapshot, alias: string)
    requires CanonicalWellFormed(Renamed(s, alias))
    ensures !Blank(alias) && ChecksApart(s.schema, alias)
  {
    hide Entries, KnownKeys, Blank, NoDuplicates, AllEntries, MetadataOk;
    var t := Renamed(s, alias).schema;
    forall c | c in s.schema.constraints ensures NoDuplicates(RenameKeys(c.referencedColumns, alias)) {
      var i :| 0 <= i < |s.schema.constraints| && s.schema.constraints[i] == c;
      assert ConstraintOk(KnownKeys(Entries(t)), alias, t.constraints[i]);
    }
  }

  lemma RenamedStays(s: CanonicalSchemaSnapshot, alias: string)
    requires CanonicalWellFormed(s) && !Blank(alias) && ChecksApart(s.schema, alias)
    ensures CanonicalWellFormed(Renamed(s, alias))
  {
    hide WellFormed, Blank, MetadataObjectOk, ParentOk, AnnotationOk, RelationshipOk, AnnotatedKeys, Identities,
        AllEntries, ChecksApart, Renamed;
    var known, from := KnownKeys(AllEntries(s)), s.schema.connectionAlias;
    OneAlias(s);
    EntriesUnder(s);
    AllEntriesRenamed(s, alias);
    RenamedEntries(AllEntries(s), AllEntries(Renamed(s, alias)), from, alias);
    TypedRenamed(s, alias);
    MetadataRenamed(s, known, alias);
  }

  lemma EntriesUnder(s: CanonicalSchemaSnapshot)
    requires forall k :: k in KnownKeys(AllEntries(s)) ==> k.connectionAlias == s.schema.connectionAlias
    ensures forall e :: e in AllEntries(s) ==> e.key.connectionAlias == s.schema.connectionAlias
    ensures forall e :: e in Entries(s.schema) ==> e.key.connectionAlias == s.schema.connectionAlias
  {
    hide Entries;
    forall e | e in AllEntries(s) ensures e.key.connectionAlias == s.schema.connectionAlias {
      assert e.key in KnownKeys(AllEntries(s));
    }
    assert forall e :: e in Entries(s.schema) ==> e in AllEntries(s);
  }

  lemma MetadataRenamed(s: CanonicalSchemaSnapshot, known: set<ObjectKey>, alias: string)
    requires MetadataOk(s, known) && KnownUnder(known, s.schema.connectionAlias)
    ensures MetadataOk(Renamed(s, alias), RenameKnown(known, alias))
  {
    hide MetadataObjectOk, ParentOk, AnnotationOk, RelationshipOk, AnnotatedKeys, Identities, RenameKnown;
    var t := Renamed(s, alias);
    MetadataObjectsRenamed(s, known, alias);
    AnnotationsRenamed(s.metadata.annotations, t.metadata.annotations, known, s.schema.connectionAlias, alias);
    RelationshipsRenamed(s.metadata.relationships, t.metadata.relationships, known, s.schema.connectionAlias, alias);
  }
}
