/** When the diff calls a node changed: the payloads of two nodes are told apart by everything in them but the
    connection aliases (schema_diff.rs, lib.rs, canonical.rs). */
module PayloadContents {
  import opened Wrappers
  import opened Lists
  import opened ObjectKeys
  import opened SchemaModel
  import opened GraphModel
  import opened JsonPayload
  import opened SchemaDiff

  // ------------------------------------------------------------------ erasure

  /** A key without its alias. */
  function EraseKey(k: ObjectKey): ObjectKey { k.(connectionAlias := []) }

  function EraseOption(k: Option<ObjectKey>): Option<ObjectKey> {
    match k case Some(key) => Some(EraseKey(key)) case None => None
  }

  function EraseKeys(keys: seq<ObjectKey>): seq<ObjectKey> { MapSeq(EraseKey, keys) }

  /** Properties without one called `connection_alias`; that there are any at all stays visible. */
  function EraseProperties(p: Properties): (bool, Properties) {
    (p == map[], map name | name in p && name != "connection_alias" :: p[name])
  }

  /** An object with the alias erased from every key in it, its properties left to `PropertiesOf`. */
  function EraseContent(content: GraphObject): GraphObject {
    match content
    case OfDatabase(o) => OfDatabase(o.(key := EraseKey(o.key)))
    case OfSchema(o) => OfSchema(o.(key := EraseKey(o.key), databaseKey := EraseKey(o.databaseKey)))
    case OfTable(o) => OfTable(o.(key := EraseKey(o.key), schemaKey := EraseKey(o.schemaKey)))
    case OfColumn(o) => OfColumn(o.(key := EraseKey(o.key), tableKey := EraseKey(o.tableKey)))
    case OfConstraint(o) =>
      OfConstraint(o.(key := EraseKey(o.key), tableKey := EraseKey(o.tableKey), columns := EraseKeys(o.columns),
                      referencedTableKey := EraseOption(o.referencedTableKey),
                      referencedColumns := EraseKeys(o.referencedColumns)))
    case OfIndex(o) =>
      OfIndex(o.(key := EraseKey(o.key), tableKey := EraseKey(o.tableKey), columns := EraseKeys(o.columns)))
    case OfView(o) =>
      OfView(o.(key := EraseKey(o.key), schemaKey := EraseKey(o.schemaKey), dependsOn := EraseKeys(o.dependsOn)))
    case OfTrigger(o) =>
      OfTrigger(o.(key := EraseKey(o.key), tableKey := EraseKey(o.tableKey),
                   executesRoutineKey := EraseOption(o.executesRoutineKey)))
    case OfRoutine(o) =>
      OfRoutine(o.(key := EraseKey(o.key), schemaKey := EraseKey(o.schemaKey), dependsOn := EraseKeys(o.dependsOn)))
    case OfMetadata(o) =>
      OfMetadata(o.(key := EraseKey(o.key), parentKey := EraseOption(o.parentKey), properties := map[]))
  }

  function PropertiesOf(content: GraphObject): (bool, Properties) {
    match content case OfMetadata(o) => EraseProperties(o.properties) case _ => EraseProperties(map[])
  }

  /** The key, the definition and the properties of an annotation, without aliases. */
  function EraseAnnotation(a: Option<ObjectAnnotation>): Option<(ObjectKey, Option<string>, (bool, Properties))> {
    match a
    case Some(x) => Some((EraseKey(x.objectKey), x.definition, EraseProperties(x.properties)))
    case None => None
  }

  /** Two payloads that say the same once aliases are erased. */
  ghost predicate SameContents(p: NodePayload, q: NodePayload) {
    && EraseContent(p.content) == EraseContent(q.content) && PropertiesOf(p.content) == PropertiesOf(q.content)
    && EraseAnnotation(p.annotation) == EraseAnnotation(q.annotation)
  }

  // ----------------------------------------------------------- structs in general

  function NameOfField(f: Field): string { f.name }

  function Names(fields: seq<Field>): seq<string> { MapSeq(NameOfField, fields) }

  lemma {:induction false} FieldNames(fields: seq<Field>, name: string)
    ensures name in FieldMap(fields) <==> name in Names(fields)
  {
    if fields != [] {
      var n := |fields| - 1;
      FieldNames(fields[..n], name);
      assert Names(fields) == Names(fields[..n]) + [fields[n].name];
    }
  }

  lemma {:induction false} FieldFound(fields: seq<Field>, i: nat)
    requires i < |fields| && NoDuplicates(Names(fields))
    ensures fields[i].name in FieldMap(fields) && FieldMap(fields)[fields[i].name] == fields[i].value
  {
    var n := |fields| - 1;
    if i < n {
      assert Names(fields[..n]) == Names(fields)[..n];
      assert Names(fields)[i] != Names(fields)[n];
      FieldFound(fields[..n], i);
    }
  }

  /** Structs of one shape are alias-blind equal when they are so field by field. */
  lemma SameShape(a: seq<Field>, b: seq<Field>)
    requires Names(a) == Names(b) && NoDuplicates(Names(a))
    ensures AliasBlind(Struct(a), Struct(b)) <==> FieldsBlind(a, b)
  {
    assert |a| == |Names(a)| == |b|;
    forall i | 0 <= i < |a| ensures a[i].name == b[i].name { assert Names(a)[i] == Names(b)[i]; }
    if FieldsBlind(a, b) { StructBlind(a, b); }
    if AliasBlind(Struct(a), Struct(b)) {
      forall i | 0 <= i < |a| && a[i].name != ALIAS_FIELD ensures AliasBlind(a[i].value, b[i].value) {
        FieldFound(a, i);
        FieldFound(b, i);
      }
    }
  }

  lemma BlindJoined(a: seq<Field>, b: seq<Field>, c: seq<Field>, d: seq<Field>)
    requires |a| == |c|
    ensures FieldsBlind(a + b, c + d) <==> FieldsBlind(a, c) && FieldsBlind(b, d)
  {
    if FieldsBlind(a + b, c + d) {
      forall i | 0 <= i < |a| ensures a[i].name == c[i].name
          && (a[i].name == ALIAS_FIELD || AliasBlind(a[i].value, c[i].value)) {
        assert (a + b)[i] == a[i] && (c + d)[i] == c[i];
      }
      forall i | 0 <= i < |b| ensures b[i].name == d[i].name
          && (b[i].name == ALIAS_FIELD || AliasBlind(b[i].value, d[i].value)) {
        assert (a + b)[|a| + i] == b[i] && (c + d)[|a| + i] == d[i];
      }
    }
  }

  // ---------------------------------------------------------------- components

  lemma OptionBlind(a: Option<string>, b: Option<string>)
    ensures AliasBlind(OptionJson(a), OptionJson(b)) <==> a == b
  {
  }

  lemma TextsBlind(a: seq<string>, b: seq<string>)
    ensures AliasBlind(TextsJson(a), TextsJson(b)) <==> a == b
  {
    var x, y := MapSeq(TextJson, a), MapSeq(TextJson, b);
    if AliasBlind(TextsJson(a), TextsJson(b)) {
      forall i | 0 <= i < |a| ensures a[i] == b[i] { assert AliasBlind(x[i], y[i]); }
    }
    if a == b { BlindReflexive(TextsJson(a)); }
  }

  function KeyFields(k: ObjectKey): seq<Field> {
    [Field("source_kind", Str(k.sourceKind)), Field(ALIAS_FIELD, Str(k.connectionAlias)),
     Field("database", Str(k.database)), Field("schema", Str(k.schema)),
     Field("object_kind", Str(KindText(k.objectKind))), Field("object_name", Str(k.objectName)),
     Field("sub_object", OptionJson(k.subObject))]
  }

  lemma KeyNames(k: ObjectKey)
    ensures Names(KeyFields(k))
         == ["source_kind", "connection_alias", "database", "schema", "object_kind", "object_name", "sub_object"]
    ensures NoDuplicates(Names(KeyFields(k)))
  {
  }

  lemma OnlyAliasErased(names: seq<string>, i: nat)
    requires names == ["source_kind", "connection_alias", "database", "schema", "object_kind", "object_name",
                       "sub_object"]
    requires i < |names| && i != 1
    ensures names[i] != ALIAS_FIELD
  {
  }

  lemma KeyBlind(a: ObjectKey, b: ObjectKey)
    ensures AliasBlind(KeyJson(a), KeyJson(b)) <==> EraseKey(a) == EraseKey(b)
  {
    hide KindText, OptionJson;
    var f, g := KeyFields(a), KeyFields(b);
    assert KeyJson(a) == Struct(f) && KeyJson(b) == Struct(g);
    KeyNames(a);
    KeyNames(b);
    SameShape(f, g);
    OptionBlind(a.subObject, b.subObject);
    if FieldsBlind(f, g) {
      forall i | 0 <= i < 7 && i != 1 ensures AliasBlind(f[i].value, g[i].value) {
        OnlyAliasErased(Names(f), i);
        assert f[i].name == Names(f)[i];
      }
      assert AliasBlind(f[0].value, g[0].value) && AliasBlind(f[2].value, g[2].value);
      assert AliasBlind(f[3].value, g[3].value) && AliasBlind(f[4].value, g[4].value);
      assert AliasBlind(f[5].value, g[5].value) && AliasBlind(f[6].value, g[6].value);
      KindTextInjective(a.objectKind, b.objectKind);
    }
    if EraseKey(a) == EraseKey(b) { BlindReflexive(OptionJson(a.subObject)); }
  }

  lemma OptionKeyBlind(a: Option<ObjectKey>, b: Option<ObjectKey>)
    ensures AliasBlind(OptionKeyJson(a), OptionKeyJson(b)) <==> EraseOption(a) == EraseOption(b)
  {
    hide EraseKey;
    if a.Some? && b.Some? { KeyBlind(a.value, b.value); }
  }

  lemma KeysBlind(a: seq<ObjectKey>, b: seq<ObjectKey>)
    ensures AliasBlind(KeysJson(a), KeysJson(b)) <==> EraseKeys(a) == EraseKeys(b)
  {
    hide KeyJson, EraseKey;
    var x, y, p, q := MapSeq(KeyJson, a), MapSeq(KeyJson, b), EraseKeys(a), EraseKeys(b);
    if |a| == |b| {
      forall i | 0 <= i < |a| ensures AliasBlind(x[i], y[i]) <==> p[i] == q[i] { KeyBlind(a[i], b[i]); }
      if p == q { ArrayBlind(x, y); }
      if AliasBlind(KeysJson(a), KeysJson(b)) {
        forall i | 0 <= i < |a| ensures p[i] == q[i] { assert AliasBlind(x[i], y[i]); }
      }
    }
  }

  function ValueFields(v: MetadataValue): seq<Field> {
    match v
    case Boolean(b) => [Field("type", Str("boolean")), Field("value", Truth(b))]
    case Integer(i) => [Field("type", Str("integer")), Field("value", Number(i))]
    case Unsigned(n) => [Field("type", Str("unsigned")), Field("value", Number(n))]
    case Text(s) => [Field("type", Str("string")), Field("value", Str(s))]
    case TextList(l) => [Field("type", Str("string_list")), Field("value", TextsJson(l))]
  }

  lemma ValueNames(v: MetadataValue)
    ensures Names(ValueFields(v)) == ["type", "value"] && NoDuplicates(Names(ValueFields(v)))
    ensures |ValueFields(v)| == 2 && ValueFields(v)[0].name != ALIAS_FIELD && ValueFields(v)[1].name != ALIAS_FIELD
  {
  }

  lemma ValueBlind(a: MetadataValue, b: MetadataValue)
    ensures AliasBlind(ValueJson(a), ValueJson(b)) <==> a == b
  {
    var f, g := ValueFields(a), ValueFields(b);
    assert ValueJson(a) == Struct(f) && ValueJson(b) == Struct(g);
    ValueNames(a);
    ValueNames(b);
    SameShape(f, g);
    if a.TextList? && b.TextList? { TextsBlind(a.l, b.l); }
    if FieldsBlind(f, g) {
      assert AliasBlind(f[0].value, g[0].value) && AliasBlind(f[1].value, g[1].value);
    }
    if a == b { BlindReflexive(ValueJson(a)); }
  }

  lemma PropertiesBlind(p: Properties, q: Properties)
    ensures AliasBlind(PropertiesJson(p), PropertiesJson(q)) <==> EraseProperties(p).1 == EraseProperties(q).1
  {
    hide ValueJson;
    var f, g := PropertiesJson(p).fields, PropertiesJson(q).fields;
    var x, y := EraseProperties(p).1, EraseProperties(q).1;
    forall name | name in p && name in q ensures AliasBlind(f[name], g[name]) <==> p[name] == q[name] {
      ValueBlind(p[name], q[name]);
    }
    if x == y {
      forall name | name in f && name != ALIAS_FIELD ensures name in g && AliasBlind(f[name], g[name]) {
        assert name in x && name in y && x[name] == p[name] && y[name] == q[name];
      }
      forall name | name in g && name != ALIAS_FIELD ensures name in f { assert name in y && name in x; }
    }
    if AliasBlind(PropertiesJson(p), PropertiesJson(q)) {
      forall name ensures name in x <==> name in y {
        assert name in x ==> name in f;
        assert name in y ==> name in g;
      }
      forall name | name in x ensures x[name] == y[name] { assert name in f && name in g; }
      assert x == y;
    }
  }

  // ------------------------------------------------------------------- objects

  /** Without an alias field, structs of one shape are compared by all their values. */
  lemma ByValues(a: seq<Field>, b: seq<Field>)
    requires Names(a) == Names(b) && ALIAS_FIELD !in Names(a)
    ensures |a| == |b|
    ensures FieldsBlind(a, b) <==> forall i :: 0 <= i < |a| ==> AliasBlind(a[i].value, b[i].value)
  {
    assert |a| == |Names(a)| == |b|;
    forall i | 0 <= i < |a| ensures a[i].name == b[i].name && a[i].name != ALIAS_FIELD {
      assert Names(a)[i] == a[i].name && Names(b)[i] == b[i].name;
    }
  }

  /** The names of an object's fields. */
  function NamesOf(content: GraphObject): seq<string> {
    match content
    case OfDatabase(_) => ["key", "name"]
    case OfSchema(_) => ["key", "database_key", "name"]
    case OfTable(_) => ["key", "schema_key", "name", "kind"]
    case OfColumn(_) =>
      ["key", "table_key", "name", "ordinal_position", "data_type", "is_nullable", "default_value", "is_generated"]
    case OfConstraint(_) =>
      ["key", "table_key", "name", "kind", "columns", "referenced_table_key", "referenced_columns", "expression"]
    case OfIndex(_) => ["key", "table_key", "name", "columns", "is_unique", "is_primary", "predicate", "expression"]
    case OfView(_) => ["key", "schema_key", "name", "definition", "depends_on"]
    case OfTrigger(_) => ["key", "table_key", "name", "timing", "events", "definition", "executes_routine_key"]
    case OfRoutine(_) => ["key", "schema_key", "name", "kind", "definition", "depends_on"]
    case OfMetadata(o) =>
      ["key", "parent_key", "name"] + (if o.extensionKind.Some? then ["extension_kind"] else [])
      + (if o.definition.Some? then ["definition"] else []) + (if o.properties == map[] then [] else ["properties"])
  }

  lemma ContentNames(content: GraphObject)
    requires !content.OfMetadata?
    ensures Names(ContentFields(content)) == NamesOf(content) && |ContentFields(content)| == |NamesOf(content)|
  {
    hide KeyJson, KeysJson, OptionJson, OptionKeyJson, TextsJson, TableKindText, ConstraintKindText, RoutineKindText;
    match content
    case OfDatabase(_) => case OfSchema(_) => case OfTable(_) => case OfColumn(_) => case OfConstraint(_) =>
    case OfIndex(_) => case OfView(_) => case OfTrigger(_) => case OfRoutine(_) =>
  }

  lemma NamesApart(content: GraphObject)
    requires !content.OfMetadata?
    ensures NoDuplicates(NamesOf(content)) && "canonical_annotation" !in NamesOf(content)
  {
  }

  lemma NoAliasNamed(content: GraphObject)
    requires !content.OfMetadata?
    ensures ALIAS_FIELD !in NamesOf(content)
  {
  }

  /** One blind comparison after another, for at most eight values. */
  predicate EachBlind(a: seq<Field>, b: seq<Field>)
    requires 2 <= |a| == |b| <= 8
  {
    && AliasBlind(a[0].value, b[0].value) && AliasBlind(a[1].value, b[1].value)
    && (|a| > 2 ==> AliasBlind(a[2].value, b[2].value)) && (|a| > 3 ==> AliasBlind(a[3].value, b[3].value))
    && (|a| > 4 ==> AliasBlind(a[4].value, b[4].value)) && (|a| > 5 ==> AliasBlind(a[5].value, b[5].value))
    && (|a| > 6 ==> AliasBlind(a[6].value, b[6].value)) && (|a| > 7 ==> AliasBlind(a[7].value, b[7].value))
  }

  lemma OneByOne(a: seq<Field>, b: seq<Field>)
    requires 2 <= |a| == |b| <= 8
    ensures EachBlind(a, b) <==> forall i :: 0 <= i < |a| ==> AliasBlind(a[i].value, b[i].value)
  {
    hide AliasBlind;
  }

  lemma PlainBlind()
    ensures forall a, b :: AliasBlind(Str(a), Str(b)) <==> a == b
    ensures forall a, b :: AliasBlind(Number(a), Number(b)) <==> a == b
    ensures forall a, b :: AliasBlind(Truth(a), Truth(b)) <==> a == b
  {
  }

  ghost predicate SameSort(p: GraphObject, q: GraphObject) {
    match p
    case OfDatabase(_) => q.OfDatabase? case OfSchema(_) => q.OfSchema? case OfTable(_) => q.OfTable?
    case OfColumn(_) => q.OfColumn? case OfConstraint(_) => q.OfConstraint? case OfIndex(_) => q.OfIndex?
    case OfView(_) => q.OfView? case OfTrigger(_) => q.OfTrigger? case OfRoutine(_) => q.OfRoutine?
    case OfMetadata(_) => q.OfMetadata?
  }

  lemma SameNames(p: GraphObject, q: GraphObject)
    requires SameSort(p, q) && !p.OfMetadata?
    ensures NamesOf(p) == NamesOf(q) && 2 <= |NamesOf(p)| <= 8
  {
  }

  /** Two objects of one sort, field by field. */
  lemma ContentsBlind(p: GraphObject, q: GraphObject)
    requires SameSort(p, q) && !p.OfMetadata?
    ensures 2 <= |ContentFields(p)| == |ContentFields(q)| <= 8
    ensures FieldsBlind(ContentFields(p), ContentFields(q)) <==> EachBlind(ContentFields(p), ContentFields(q))
  {
    hide AliasBlind, ContentFields, FieldsBlind, EachBlind, NamesOf;
    SameNames(p, q);
    ContentNames(p);
    ContentNames(q);
    NoAliasNamed(p);
    ByValues(ContentFields(p), ContentFields(q));
    OneByOne(ContentFields(p), ContentFields(q));
  }

  /** The fields of every object but a metadata object, compared one by one. */
  lemma OwnerBlind(p: GraphObject, q: GraphObject)
    requires (p.OfDatabase? && q.OfDatabase?) || (p.OfSchema? && q.OfSchema?) || (p.OfTable? && q.OfTable?)
    ensures FieldsBlind(ContentFields(p), ContentFields(q)) <==> EraseContent(p) == EraseContent(q)
  {
    hide KeyJson, EraseKey, TableKindText, AliasBlind, FieldsBlind;
    var f, g := ContentFields(p), ContentFields(q);
    PlainBlind();
    ContentsBlind(p, q);
    KeyBlind(ContentKey(p), ContentKey(q));
    assert f[0].value == KeyJson(ContentKey(p)) && g[0].value == KeyJson(ContentKey(q));
    match (p, q)
    case (OfDatabase(o), OfDatabase(x)) =>
      assert f[1].value == Str(o.name) && g[1].value == Str(x.name);
    case (OfSchema(o), OfSchema(x)) =>
      KeyBlind(o.databaseKey, x.databaseKey);
      assert f[1].value == KeyJson(o.databaseKey) && g[1].value == KeyJson(x.databaseKey);
      assert f[2].value == Str(o.name) && g[2].value == Str(x.name);
    case (OfTable(o), OfTable(x)) =>
      KeyBlind(o.schemaKey, x.schemaKey);
      TableKindsApart(o.kind, x.kind);
      assert f[1].value == KeyJson(o.schemaKey) && g[1].value == KeyJson(x.schemaKey);
      assert f[2].value == Str(o.name) && g[2].value == Str(x.name);
      assert f[3].value == Str(TableKindText(o.kind)) && g[3].value == Str(TableKindText(x.kind));
  }

  function ContentKey(content: GraphObject): ObjectKey {
    match content
    case OfDatabase(o) => o.key case OfSchema(o) => o.key case OfTable(o) => o.key case OfColumn(o) => o.key
    case OfConstraint(o) => o.key case OfIndex(o) => o.key case OfView(o) => o.key case OfTrigger(o) => o.key
    case OfRoutine(o) => o.key case OfMetadata(o) => o.key
  }

  lemma TableKindsApart(a: TableKind, b: TableKind)
    ensures TableKindText(a) == TableKindText(b) <==> a == b
  {
  }

  lemma ConstraintKindsApart(a: ConstraintKind, b: ConstraintKind)
    ensures ConstraintKindText(a) == ConstraintKindText(b) <==> a == b
  {
  }

  lemma RoutineKindsApart(a: RoutineKind, b: RoutineKind)
    ensures RoutineKindText(a) == RoutineKindText(b) <==> a == b
  {
  }

  lemma ColumnValues(o: ColumnObject)
    ensures var f := ContentFields(OfColumn(o));
            && |f| == 8
            && f[0].value == KeyJson(o.key) && f[1].value == KeyJson(o.tableKey)
            && f[2].value == Str(o.name) && f[3].value == Number(o.ordinalPosition)
            && f[4].value == Str(o.dataType) && f[5].value == Truth(o.isNullable)
            && f[6].value == OptionJson(o.defaultValue) && f[7].value == Truth(o.isGenerated)
  {
    hide KeyJson, KeysJson, OptionJson, OptionKeyJson;
  }

  lemma ColumnBlind(o: ColumnObject, x: ColumnObject)
    ensures FieldsBlind(ContentFields(OfColumn(o)), ContentFields(OfColumn(x)))
            <==> EraseContent(OfColumn(o)) == EraseContent(OfColumn(x))
  {
    hide KeyJson, EraseKey, OptionJson, AliasBlind, FieldsBlind, ContentFields;
    KeyBlind(o.key, x.key);
    KeyBlind(o.tableKey, x.tableKey);
    OptionBlind(o.defaultValue, x.defaultValue);
    PlainBlind();
    ContentsBlind(OfColumn(o), OfColumn(x));
    ColumnValues(o);
    ColumnValues(x);
  }

  lemma ConstraintValues(o: ConstraintObject)
    ensures var f := ContentFields(OfConstraint(o));
            && |f| == 8
            && f[0].value == KeyJson(o.key) && f[1].value == KeyJson(o.tableKey)
            && f[2].value == Str(o.name) && f[3].value == Str(ConstraintKindText(o.kind))
            && f[4].value == KeysJson(o.columns) && f[5].value == OptionKeyJson(o.referencedTableKey)
            && f[6].value == KeysJson(o.referencedColumns) && f[7].value == OptionJson(o.expression)
  {
    hide KeyJson, KeysJson, OptionJson, OptionKeyJson;
  }

  lemma ConstraintBlind(o: ConstraintObject, x: ConstraintObject)
    ensures FieldsBlind(ContentFields(OfConstraint(o)), ContentFields(OfConstraint(x)))
            <==> EraseContent(OfConstraint(o)) == EraseContent(OfConstraint(x))
  {
    hide KeyJson, EraseKey, KeysJson, EraseKeys, OptionKeyJson, EraseOption, OptionJson, ConstraintKindText, AliasBlind,
        FieldsBlind, ContentFields;
    KeyBlind(o.key, x.key);
    KeyBlind(o.tableKey, x.tableKey);
    ConstraintKindsApart(o.kind, x.kind);
    KeysBlind(o.columns, x.columns);
    OptionKeyBlind(o.referencedTableKey, x.referencedTableKey);
    KeysBlind(o.referencedColumns, x.referencedColumns);
    OptionBlind(o.expression, x.expression);
    PlainBlind();
    ContentsBlind(OfConstraint(o), OfConstraint(x));
    ConstraintValues(o);
    ConstraintValues(x);
  }

  lemma IndexValues(o: IndexObject)
    ensures var f := ContentFields(OfIndex(o));
            && |f| == 8
            && f[0].value == KeyJson(o.key) && f[1].value == KeyJson(o.tableKey)
            && f[2].value == Str(o.name) && f[3].value == KeysJson(o.columns)
            && f[4].value == Truth(o.isUnique) && f[5].value == Truth(o.isPrimary)
            && f[6].value == OptionJson(o.filter) && f[7].value == OptionJson(o.expression)
  {
    hide KeyJson, KeysJson, OptionJson, OptionKeyJson;
  }

  lemma IndexBlind(o: IndexObject, x: IndexObject)
    ensures FieldsBlind(ContentFields(OfIndex(o)), ContentFields(OfIndex(x)))
            <==> EraseContent(OfIndex(o)) == EraseContent(OfIndex(x))
  {
    hide KeyJson, EraseKey, KeysJson, EraseKeys, OptionJson, AliasBlind, FieldsBlind, ContentFields;
    KeyBlind(o.key, x.key);
    KeyBlind(o.tableKey, x.tableKey);
    KeysBlind(o.columns, x.columns);
    OptionBlind(o.filter, x.filter);
    OptionBlind(o.expression, x.expression);
    PlainBlind();
    ContentsBlind(OfIndex(o), OfIndex(x));
    IndexValues(o);
    IndexValues(x);
  }

  lemma ViewBlind(o: ViewObject, x: ViewObject)
    ensures FieldsBlind(ContentFields(OfView(o)), ContentFields(OfView(x)))
            <==> EraseContent(OfView(o)) == EraseContent(OfView(x))
  {
    hide KeyJson, EraseKey, KeysJson, EraseKeys, OptionJson, AliasBlind, FieldsBlind;
    KeyBlind(o.key, x.key);
    KeyBlind(o.schemaKey, x.schemaKey);
    OptionBlind(o.definition, x.definition);
    KeysBlind(o.dependsOn, x.dependsOn);
    var f, g := ContentFields(OfView(o)), ContentFields(OfView(x));
    PlainBlind();
    ContentsBlind(OfView(o), OfView(x));
    assert f[0].value == KeyJson(o.key) && g[0].value == KeyJson(x.key);
    assert f[1].value == KeyJson(o.schemaKey) && g[1].value == KeyJson(x.schemaKey);
    assert f[2].value == Str(o.name) && g[2].value == Str(x.name);
    assert f[3].value == OptionJson(o.definition) && g[3].value == OptionJson(x.definition);
    assert f[4].value == KeysJson(o.dependsOn) && g[4].value == KeysJson(x.dependsOn);
  }

  lemma TriggerBlind(o: TriggerObject, x: TriggerObject)
    ensures FieldsBlind(ContentFields(OfTrigger(o)), ContentFields(OfTrigger(x)))
            <==> EraseContent(OfTrigger(o)) == EraseContent(OfTrigger(x))
  {
    hide KeyJson, EraseKey, TextsJson, OptionKeyJson, EraseOption, OptionJson, AliasBlind, FieldsBlind;
    KeyBlind(o.key, x.key);
    KeyBlind(o.tableKey, x.tableKey);
    OptionBlind(o.timing, x.timing);
    TextsBlind(o.events, x.events);
    OptionBlind(o.definition, x.definition);
    OptionKeyBlind(o.executesRoutineKey, x.executesRoutineKey);
    var f, g := ContentFields(OfTrigger(o)), ContentFields(OfTrigger(x));
    PlainBlind();
    ContentsBlind(OfTrigger(o), OfTrigger(x));
    assert f[0].value == KeyJson(o.key) && g[0].value == KeyJson(x.key);
    assert f[1].value == KeyJson(o.tableKey) && g[1].value == KeyJson(x.tableKey);
    assert f[2].value == Str(o.name) && g[2].value == Str(x.name);
    assert f[3].value == OptionJson(o.timing) && g[3].value == OptionJson(x.timing);
    assert f[4].value == TextsJson(o.events) && g[4].value == TextsJson(x.events);
    assert f[5].value == OptionJson(o.definition) && g[5].value == OptionJson(x.definition);
    assert f[6].value == OptionKeyJson(o.executesRoutineKey) && g[6].value == OptionKeyJson(x.executesRoutineKey);
  }

  lemma RoutineBlind(o: RoutineObject, x: RoutineObject)
    ensures FieldsBlind(ContentFields(OfRoutine(o)), ContentFields(OfRoutine(x)))
            <==> EraseContent(OfRoutine(o)) == EraseContent(OfRoutine(x))
  {
    hide KeyJson, EraseKey, KeysJson, EraseKeys, OptionJson, RoutineKindText, AliasBlind, FieldsBlind;
    KeyBlind(o.key, x.key);
    KeyBlind(o.schemaKey, x.schemaKey);
    RoutineKindsApart(o.kind, x.kind);
    OptionBlind(o.definition, x.definition);
    KeysBlind(o.dependsOn, x.dependsOn);
    var f, g := ContentFields(OfRoutine(o)), ContentFields(OfRoutine(x));
    PlainBlind();
    ContentsBlind(OfRoutine(o), OfRoutine(x));
    assert f[0].value == KeyJson(o.key) && g[0].value == KeyJson(x.key);
    assert f[1].value == KeyJson(o.schemaKey) && g[1].value == KeyJson(x.schemaKey);
    assert f[2].value == Str(o.name) && g[2].value == Str(x.name);
    assert f[3].value == Str(RoutineKindText(o.kind)) && g[3].value == Str(RoutineKindText(x.kind));
    assert f[4].value == OptionJson(o.definition) && g[4].value == OptionJson(x.definition);
    assert f[5].value == KeysJson(o.dependsOn) && g[5].value == KeysJson(x.dependsOn);
  }

  // ------------------------------------------------------- what may be absent

  /** Structs that are compared as equal have the same names. */
  lemma BlindNames(a: seq<Field>, b: seq<Field>)
    requires AliasBlind(Struct(a), Struct(b))
    ensures forall name :: name != ALIAS_FIELD ==> (name in Names(a) <==> name in Names(b))
  {
    forall name | name != ALIAS_FIELD ensures name in Names(a) <==> name in Names(b) {
      FieldNames(a, name);
      FieldNames(b, name);
    }
  }

  function DefinitionNames(definition: Option<string>, properties: Properties): seq<string> {
    (if definition.Some? then ["definition"] else []) + (if properties == map[] then [] else ["properties"])
  }

  lemma DefinitionNamesAre(definition: Option<string>, properties: Properties)
    ensures Names(DefinitionFields(definition, properties)) == DefinitionNames(definition, properties)
  {
    hide PropertiesJson;
  }

  lemma DefinitionNamesTell(definition: Option<string>, properties: Properties)
    ensures "definition" in DefinitionNames(definition, properties) <==> definition.Some?
    ensures "properties" in DefinitionNames(definition, properties) <==> properties != map[]
    ensures ALIAS_FIELD !in DefinitionNames(definition, properties)
  {
  }

  ghost predicate SamePresence(d: Option<string>, p: Properties, e: Option<string>, q: Properties) {
    (d.Some? <==> e.Some?) && (p == map[] <==> q == map[])
  }

  lemma DefinitionsBlind(d: Option<string>, p: Properties, e: Option<string>, q: Properties)
    requires SamePresence(d, p, e, q)
    ensures FieldsBlind(DefinitionFields(d, p), DefinitionFields(e, q))
            <==> d == e && EraseProperties(p) == EraseProperties(q)
  {
    hide PropertiesJson, EraseProperties;
    var f := match d case Some(text) => [Field("definition", Str(text))] case None => [];
    var g := match e case Some(text) => [Field("definition", Str(text))] case None => [];
    var x := if |p| == 0 then [] else [Field("properties", PropertiesJson(p))];
    var y := if |q| == 0 then [] else [Field("properties", PropertiesJson(q))];
    BlindJoined(f, x, g, y);
    DefinitionBlind(d, e, f, g);
    PropertyBlind(p, q, x, y);
  }

  lemma DefinitionBlind(d: Option<string>, e: Option<string>, f: seq<Field>, g: seq<Field>)
    requires d.Some? <==> e.Some?
    requires f == match d case Some(text) => [Field("definition", Str(text))] case None => []
    requires g == match e case Some(text) => [Field("definition", Str(text))] case None => []
    ensures FieldsBlind(f, g) <==> d == e
  {
    if d.Some? {
      assert f[0] == Field("definition", Str(d.value)) && g[0] == Field("definition", Str(e.value));
      assert f[0].name != ALIAS_FIELD;
    }
  }

  lemma PropertyBlind(p: Properties, q: Properties, x: seq<Field>, y: seq<Field>)
    requires p == map[] <==> q == map[]
    requires x == if |p| == 0 then [] else [Field("properties", PropertiesJson(p))]
    requires y == if |q| == 0 then [] else [Field("properties", PropertiesJson(q))]
    ensures FieldsBlind(x, y) <==> EraseProperties(p) == EraseProperties(q)
  {
    hide PropertiesJson;
    if p == map[] {
      assert |p| == 0 && |q| == 0;
    } else {
      PropertiesBlind(p, q);
      assert |p| != 0 && |q| != 0 by { NotEmpty(p); NotEmpty(q); }
      assert x[0] == Field("properties", PropertiesJson(p)) && y[0] == Field("properties", PropertiesJson(q));
      assert x[0].name != ALIAS_FIELD;
    }
  }

  lemma NotEmpty(p: Properties)
    requires p != map[]
    ensures |p| != 0
  {
  }

  // ---------------------------------------------------------------- annotations

  function AnnotationFields(a: ObjectAnnotation): seq<Field> {
    [Field("object_key", KeyJson(a.objectKey))] + DefinitionFields(a.definition, a.properties)
  }

  lemma AnnotationNames(a: ObjectAnnotation)
    ensures Names(AnnotationFields(a)) == ["object_key"] + DefinitionNames(a.definition, a.properties)
    ensures NoDuplicates(Names(AnnotationFields(a)))
  {
    hide KeyJson, DefinitionFields;
    DefinitionNamesAre(a.definition, a.properties);
    assert Names(AnnotationFields(a)) == ["object_key"] + Names(DefinitionFields(a.definition, a.properties));
  }

  lemma AnnotationNamesTell(a: ObjectAnnotation)
    ensures "definition" in Names(AnnotationFields(a)) <==> a.definition.Some?
    ensures "properties" in Names(AnnotationFields(a)) <==> a.properties != map[]
  {
    hide AnnotationFields, DefinitionNames;
    AnnotationNames(a);
    DefinitionNamesTell(a.definition, a.properties);
    var first, rest := ["object_key"], DefinitionNames(a.definition, a.properties);
    assert "definition" !in first && "properties" !in first;
    assert forall name :: name in first + rest <==> name in first || name in rest;
  }

  lemma AnnotationPresence(a: ObjectAnnotation, b: ObjectAnnotation)
    requires forall name :: name != ALIAS_FIELD ==>
               (name in Names(AnnotationFields(a)) <==> name in Names(AnnotationFields(b)))
    ensures SamePresence(a.definition, a.properties, b.definition, b.properties)
  {
    hide AnnotationFields, Names;
    AnnotationNamesTell(a);
    AnnotationNamesTell(b);
    assert "definition" != ALIAS_FIELD && "properties" != ALIAS_FIELD;
  }

  lemma AnnotationBlind(a: ObjectAnnotation, b: ObjectAnnotation)
    ensures AliasBlind(AnnotationJson(a), AnnotationJson(b)) <==> EraseAnnotation(Some(a)) == EraseAnnotation(Some(b))
  {
    hide KeyJson, EraseKey, DefinitionFields, AliasBlind, FieldsBlind, EraseProperties, Names;
    var f, g := AnnotationFields(a), AnnotationFields(b);
    if AliasBlind(AnnotationJson(a), AnnotationJson(b)) {
      BlindNames(f, g);
      AnnotationPresence(a, b);
    }
    if EraseAnnotation(Some(a)) == EraseAnnotation(Some(b)) { ErasedPresence(a.properties, b.properties); }
    if SamePresence(a.definition, a.properties, b.definition, b.properties) {
      AnnotationNames(a);
      AnnotationNames(b);
      SameShape(f, g);
      BlindJoined([f[0]], DefinitionFields(a.definition, a.properties), [g[0]],
                  DefinitionFields(b.definition, b.properties));
      OneFieldBlind("object_key", KeyJson(a.objectKey), KeyJson(b.objectKey));
      KeyBlind(a.objectKey, b.objectKey);
      DefinitionsBlind(a.definition, a.properties, b.definition, b.properties);
    }
  }

  lemma ErasedPresence(p: Properties, q: Properties)
    requires EraseProperties(p) == EraseProperties(q)
    ensures p == map[] <==> q == map[]
  {
  }

  lemma OneFieldBlind(name: string, x: Json, y: Json)
    requires name != ALIAS_FIELD
    ensures FieldsBlind([Field(name, x)], [Field(name, y)]) <==> AliasBlind(x, y)
  {
    var f, g := [Field(name, x)], [Field(name, y)];
    assert f[0].name == name && g[0].name == name;
  }

  // ----------------------------------------------------------- metadata objects

  function HeadFields(o: MetadataObject): seq<Field> {
    [Field("key", KeyJson(o.key)), Field("parent_key", OptionKeyJson(o.parentKey)), Field("name", Str(o.name))]
  }

  function ExtensionFields(o: MetadataObject): seq<Field> {
    match o.extensionKind case Some(text) => [Field("extension_kind", Str(text))] case None => []
  }

  lemma MetadataNames(o: MetadataObject)
    ensures Names(ContentFields(OfMetadata(o))) == NamesOf(OfMetadata(o))
    ensures ContentFields(OfMetadata(o))
         == (HeadFields(o) + ExtensionFields(o)) + DefinitionFields(o.definition, o.properties)
  {
    hide KeyJson, OptionKeyJson, DefinitionFields;
    DefinitionNamesAre(o.definition, o.properties);
    assert Names(ContentFields(OfMetadata(o)))
        == Names(HeadFields(o)) + Names(ExtensionFields(o)) + Names(DefinitionFields(o.definition, o.properties));
  }

  lemma MetadataNamesApart(o: MetadataObject)
    ensures NoDuplicates(NamesOf(OfMetadata(o))) && "canonical_annotation" !in NamesOf(OfMetadata(o))
  {
    var all := ["key", "parent_key", "name", "extension_kind", "definition", "properties"];
    if o.extensionKind.Some? {
    } else if o.definition.Some? {
    }
  }

  lemma HeadsBlind(o: MetadataObject, x: MetadataObject)
    ensures FieldsBlind(HeadFields(o), HeadFields(x)) <==>
              && EraseKey(o.key) == EraseKey(x.key) && EraseOption(o.parentKey) == EraseOption(x.parentKey)
              && o.name == x.name
  {
    hide KeyJson, EraseKey, OptionKeyJson, EraseOption, AliasBlind;
    var f, g := HeadFields(o), HeadFields(x);
    PlainBlind();
    KeyBlind(o.key, x.key);
    OptionKeyBlind(o.parentKey, x.parentKey);
    assert f[0].value == KeyJson(o.key) && g[0].value == KeyJson(x.key);
    assert f[1].value == OptionKeyJson(o.parentKey) && g[1].value == OptionKeyJson(x.parentKey);
    assert f[2].value == Str(o.name) && g[2].value == Str(x.name);
    assert f[0].name != ALIAS_FIELD && f[1].name != ALIAS_FIELD && f[2].name != ALIAS_FIELD;
  }

  lemma ExtensionsBlind(o: MetadataObject, x: MetadataObject)
    requires o.extensionKind.Some? <==> x.extensionKind.Some?
    ensures |ExtensionFields(o)| == |ExtensionFields(x)|
    ensures FieldsBlind(ExtensionFields(o), ExtensionFields(x)) <==> o.extensionKind == x.extensionKind
  {
    if o.extensionKind.Some? {
      OneFieldBlind("extension_kind", Str(o.extensionKind.value), Str(x.extensionKind.value));
    }
  }

  lemma MetadataBlind(o: MetadataObject, x: MetadataObject)
    requires o.extensionKind.Some? <==> x.extensionKind.Some?
    requires SamePresence(o.definition, o.properties, x.definition, x.properties)
    ensures |ContentFields(OfMetadata(o))| == |ContentFields(OfMetadata(x))|
    ensures FieldsBlind(ContentFields(OfMetadata(o)), ContentFields(OfMetadata(x))) <==>
              && EraseContent(OfMetadata(o)) == EraseContent(OfMetadata(x))
              && PropertiesOf(OfMetadata(o)) == PropertiesOf(OfMetadata(x))
  {
    hide KeyJson, EraseKey, EraseOption, HeadFields, ExtensionFields, DefinitionFields, FieldsBlind, EraseProperties,
         ContentFields, Names;
    MetadataNames(o);
    MetadataNames(x);
    SameLengths(o, x);
    BlindJoined(HeadFields(o) + ExtensionFields(o), DefinitionFields(o.definition, o.properties),
                HeadFields(x) + ExtensionFields(x), DefinitionFields(x.definition, x.properties));
    BlindJoined(HeadFields(o), ExtensionFields(o), HeadFields(x), ExtensionFields(x));
    HeadsBlind(o, x);
    ExtensionsBlind(o, x);
    DefinitionsBlind(o.definition, o.properties, x.definition, x.properties);
  }

  lemma SameLengths(o: MetadataObject, x: MetadataObject)
    requires o.extensionKind.Some? <==> x.extensionKind.Some?
    requires SamePresence(o.definition, o.properties, x.definition, x.properties)
    ensures |HeadFields(o)| == |HeadFields(x)| && |ExtensionFields(o)| == |ExtensionFields(x)|
    ensures |DefinitionFields(o.definition, o.properties)| == |DefinitionFields(x.definition, x.properties)|
  {
    hide PropertiesJson;
    if o.properties != map[] { NotEmpty(o.properties); NotEmpty(x.properties); }
  }

  // ----------------------------------------------------------------- payloads

  /** The names that tell what an object is, and what an optional part of it. */
  lemma SortNamed(content: GraphObject)
    requires !content.OfMetadata?
    ensures "database_key" in NamesOf(content) <==> content.OfSchema?
    ensures "ordinal_position" in NamesOf(content) <==> content.OfColumn?
  {
  }

  lemma PartSortNamed(content: GraphObject)
    requires !content.OfMetadata?
    ensures "referenced_columns" in NamesOf(content) <==> content.OfConstraint?
    ensures "is_unique" in NamesOf(content) <==> content.OfIndex?
  {
  }

  lemma KindSortNamed(content: GraphObject)
    requires !content.OfMetadata?
    ensures "events" in NamesOf(content) <==> content.OfTrigger?
    ensures "kind" in NamesOf(content) <==> content.OfTable? || content.OfRoutine? || content.OfConstraint?
  {
  }

  lemma OwnerSortNamed(content: GraphObject)
    requires !content.OfMetadata?
    ensures "schema_key" in NamesOf(content) <==> content.OfTable? || content.OfView? || content.OfRoutine?
    ensures "depends_on" in NamesOf(content) <==> content.OfView? || content.OfRoutine?
  {
  }

  lemma ParentNamed(content: GraphObject)
    ensures "parent_key" in NamesOf(content) <==> content.OfMetadata?
  {
  }

  lemma PartsNamed(o: MetadataObject)
    ensures "extension_kind" in NamesOf(OfMetadata(o)) <==> o.extensionKind.Some?
    ensures "definition" in NamesOf(OfMetadata(o)) <==> o.definition.Some?
    ensures "properties" in NamesOf(OfMetadata(o)) <==> o.properties != map[]
  {
  }

  /** Objects with the same field names are of one sort. */
  lemma SameSortNamed(p: GraphObject, q: GraphObject)
    requires forall name :: name != ALIAS_FIELD && name != "canonical_annotation" ==>
               (name in NamesOf(p) <==> name in NamesOf(q))
    ensures SameSort(p, q)
    ensures p.OfMetadata? ==>
              && (p.metadata.extensionKind.Some? <==> q.metadata.extensionKind.Some?)
              && SamePresence(p.metadata.definition, p.metadata.properties, q.metadata.definition,
                              q.metadata.properties)
  {
    hide NamesOf;
    ParentNamed(p);
    ParentNamed(q);
    SortsAreOther();
    if p.OfMetadata? && q.OfMetadata? {
      PartsNamed(p.metadata);
      PartsNamed(q.metadata);
    } else {
      SortNamed(p);
      SortNamed(q);
      PartSortNamed(p);
      PartSortNamed(q);
      KindSortNamed(p);
      KindSortNamed(q);
      OwnerSortNamed(p);
      OwnerSortNamed(q);
    }
  }

  lemma SortsAreOther()
    ensures "database_key" != ALIAS_FIELD && "database_key" != "canonical_annotation"
    ensures "ordinal_position" != ALIAS_FIELD && "ordinal_position" != "canonical_annotation"
    ensures "referenced_columns" != ALIAS_FIELD && "referenced_columns" != "canonical_annotation"
    ensures "is_unique" != ALIAS_FIELD && "is_unique" != "canonical_annotation"
    ensures "events" != ALIAS_FIELD && "events" != "canonical_annotation"
    ensures "parent_key" != ALIAS_FIELD && "parent_key" != "canonical_annotation"
    ensures "schema_key" != ALIAS_FIELD && "schema_key" != "canonical_annotation"
    ensures "depends_on" != ALIAS_FIELD && "depends_on" != "canonical_annotation"
    ensures "kind" != ALIAS_FIELD && "kind" != "canonical_annotation"
    ensures "extension_kind" != ALIAS_FIELD && "extension_kind" != "canonical_annotation"
    ensures "definition" != ALIAS_FIELD && "definition" != "canonical_annotation"
    ensures "properties" != ALIAS_FIELD && "properties" != "canonical_annotation"
  {
  }

  lemma ObjectNames(content: GraphObject)
    ensures Names(ContentFields(content)) == NamesOf(content) && |ContentFields(content)| == |NamesOf(content)|
    ensures NoDuplicates(NamesOf(content)) && "canonical_annotation" !in NamesOf(content)
  {
    hide NamesOf, ContentFields;
    if content.OfMetadata? {
      MetadataNames(content.metadata);
      MetadataNamesApart(content.metadata);
      assert |Names(ContentFields(content))| == |ContentFields(content)|;
    } else {
      ContentNames(content);
      NamesApart(content);
    }
  }

  /** Two objects of one sort with the same parts are compared by all but their aliases. */
  lemma ObjectsBlind(p: GraphObject, q: GraphObject)
    requires SameSort(p, q)
    requires p.OfMetadata? ==>
              && (p.metadata.extensionKind.Some? <==> q.metadata.extensionKind.Some?)
              && SamePresence(p.metadata.definition, p.metadata.properties, q.metadata.definition,
                              q.metadata.properties)
    ensures |ContentFields(p)| == |ContentFields(q)|
    ensures FieldsBlind(ContentFields(p), ContentFields(q))
            <==> EraseContent(p) == EraseContent(q) && PropertiesOf(p) == PropertiesOf(q)
  {
    hide ContentFields, FieldsBlind, EraseContent;
    if !p.OfMetadata? { ContentsBlind(p, q); }
    match p
    case OfColumn(o) => ColumnBlind(o, q.column);
    case OfConstraint(o) => ConstraintBlind(o, q.constraint);
    case OfIndex(o) => IndexBlind(o, q.index);
    case OfView(o) => ViewBlind(o, q.view);
    case OfTrigger(o) => TriggerBlind(o, q.trigger);
    case OfRoutine(o) => RoutineBlind(o, q.routine);
    case OfMetadata(o) => MetadataBlind(o, q.metadata);
    case _ => OwnerBlind(p, q);
  }

  function AddedFields(annotation: Option<ObjectAnnotation>): seq<Field> {
    match annotation case Some(a) => [Field("canonical_annotation", AnnotationJson(a))] case None => []
  }

  lemma AddedBlind(a: Option<ObjectAnnotation>, b: Option<ObjectAnnotation>)
    requires a.Some? <==> b.Some?
    ensures FieldsBlind(AddedFields(a), AddedFields(b)) <==> EraseAnnotation(a) == EraseAnnotation(b)
  {
    hide AnnotationJson, AliasBlind;
    if a.Some? {
      AnnotationBlind(a.value, b.value);
      OneFieldBlind("canonical_annotation", AnnotationJson(a.value), AnnotationJson(b.value));
    }
  }

  function PayloadNames(p: NodePayload): seq<string> {
    NamesOf(p.content) + (if p.annotation.Some? then ["canonical_annotation"] else [])
  }

  lemma AddedNames(annotation: Option<ObjectAnnotation>)
    ensures Names(AddedFields(annotation)) == if annotation.Some? then ["canonical_annotation"] else []
  {
    hide AnnotationJson;
  }

  lemma PayloadNamesAre(p: NodePayload)
    ensures var fields := ContentFields(p.content) + AddedFields(p.annotation);
            && PayloadJson(p) == Struct(fields) && Names(fields) == PayloadNames(p) && NoDuplicates(PayloadNames(p))
  {
    hide NamesOf, ContentFields, AnnotationJson, AddedFields;
    ObjectNames(p.content);
    AddedNames(p.annotation);
    PayloadStruct(p);
    var fields := ContentFields(p.content) + AddedFields(p.annotation);
    assert Names(fields) == Names(ContentFields(p.content)) + Names(AddedFields(p.annotation));
    PayloadNamesApart(p);
  }

  lemma PayloadStruct(p: NodePayload)
    ensures PayloadJson(p) == Struct(ContentFields(p.content) + AddedFields(p.annotation))
  {
    hide ContentFields, AnnotationJson;
  }

  lemma PayloadNamesApart(p: NodePayload)
    requires NoDuplicates(NamesOf(p.content)) && "canonical_annotation" !in NamesOf(p.content)
    ensures NoDuplicates(PayloadNames(p))
    ensures "canonical_annotation" in PayloadNames(p) <==> p.annotation.Some?
    ensures forall name :: name != "canonical_annotation" ==> (name in PayloadNames(p) <==> name in NamesOf(p.content))
  {
    hide NamesOf;
  }

  /** Payloads are compared as equal exactly when they say the same once aliases are erased. */
  lemma PayloadsBlind(p: NodePayload, q: NodePayload)
    ensures AliasBlind(PayloadJson(p), PayloadJson(q)) <==> SameContents(p, q)
  {
    hide NamesOf, ContentFields, PayloadJson, AliasBlind, FieldsBlind, EraseContent, EraseAnnotation, Names,
        AddedFields,
         PropertiesOf, PayloadNames;
    var f, g := ContentFields(p.content) + AddedFields(p.annotation),
                ContentFields(q.content) + AddedFields(q.annotation);
    PayloadNamesAre(p);
    PayloadNamesAre(q);
    ObjectNames(p.content);
    ObjectNames(q.content);
    PayloadNamesApart(p);
    PayloadNamesApart(q);
    assert "canonical_annotation" != ALIAS_FIELD;
    if AliasBlind(PayloadJson(p), PayloadJson(q)) {
      BlindNames(f, g);
      SameSortNamed(p.content, q.content);
    }
    if SameContents(p, q) { ErasedSort(p, q); }
    if Matching(p, q) {
      ObjectsBlind(p.content, q.content);
      AddedBlind(p.annotation, q.annotation);
      BlindJoined(ContentFields(p.content), AddedFields(p.annotation), ContentFields(q.content),
                  AddedFields(q.annotation));
      MatchingNames(p, q);
      SameShape(f, g);
    }
  }

  ghost predicate Matching(p: NodePayload, q: NodePayload) {
    && SameSort(p.content, q.content) && (p.annotation.Some? <==> q.annotation.Some?)
    && (p.content.OfMetadata? ==>
          && (p.content.metadata.extensionKind.Some? <==> q.content.metadata.extensionKind.Some?)
          && SamePresence(p.content.metadata.definition, p.content.metadata.properties,
                          q.content.metadata.definition, q.content.metadata.properties))
  }

  lemma ErasedSort(p: NodePayload, q: NodePayload)
    requires SameContents(p, q)
    ensures Matching(p, q)
  {
    hide EraseKey, EraseKeys, EraseOption;
    if p.content.OfMetadata? && q.content.OfMetadata? {
      ErasedPresence(p.content.metadata.properties, q.content.metadata.properties);
    }
  }

  lemma MatchingNames(p: NodePayload, q: NodePayload)
    requires Matching(p, q)
    ensures PayloadNames(p) == PayloadNames(q)
  {
  }

  // ------------------------------------------------------------------ the diff

  /** The diff does not call a node changed if and only if labels and names agree, and the contents and the
      annotations do once the alias of every key in them is erased. Properties called `connection_alias` are
      not compared, for the comparison drops them too. */
  lemma SameWhen(a: NodeRecord, b: NodeRecord)
    ensures Same(a, b) <==>
              && a.nodeLabel == b.nodeLabel && a.displayName == b.displayName && SameContents(a.payload, b.payload)
  {
    hide PayloadJson, AliasBlind, Strip, SameContents;
    StripDecides(PayloadJson(a.payload), PayloadJson(b.payload));
    PayloadsBlind(a.payload, b.payload);
  }

  ghost predicate Differ(a: NodeRecord, b: NodeRecord) {
    a.nodeLabel != b.nodeLabel || a.displayName != b.displayName || !SameContents(a.payload, b.payload)
  }

  /** The changed nodes of a comparison are the pairs of stored nodes under one comparable key that differ in
      label, name, contents or annotation, aliases aside. */
  lemma ChangedNodesDiffer(from: Graph, to: Graph)
    ensures var before, after := NodesByComparable(from), NodesByComparable(to);
            forall x :: x in Compare(from, to).changedNodes <==>
              exists k :: k in before && k in after && x == ChangedNode(before[k], after[k])
                  && Differ(x.before, x.after)
  {
    hide NodesByComparable, ChangedKeys, Differ, Same;
    var before, after := NodesByComparable(from), NodesByComparable(to);
    var keys, changed := ChangedKeys(before, after), ChangedRows(before, after);
    ChangedHolds(before, after, keys);
    forall x ensures x in changed <==>
      exists k :: k in before && k in after && x == ChangedNode(before[k], after[k]) && Differ(x.before, x.after) {
      if x in changed {
        var i :| 0 <= i < |changed| && changed[i] == x;
        assert keys[i] in keys;
        DifferWhen(x.before, x.after);
      }
      if k :| k in before && k in after && x == ChangedNode(before[k], after[k]) && Differ(x.before, x.after) {
        DifferWhen(x.before, x.after);
        assert IsChanged(before, after, k) && k in keys;
        var i :| 0 <= i < |keys| && keys[i] == k;
        assert changed[i] == x;
      }
    }
  }

  lemma DifferWhen(a: NodeRecord, b: NodeRecord)
    ensures Differ(a, b) <==> !Same(a, b)
  {
    hide SameContents, Same;
    SameWhen(a, b);
  }
}
