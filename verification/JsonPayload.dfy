/** The JSON form of stored payloads, and the comparison that ignores connection aliases at every
    depth (schema_diff.rs, lib.rs, canonical.rs). */
module JsonPayload {
  import opened Wrappers
  import opened Lists
  import opened ObjectKeys
  import opened SchemaModel
  import opened GraphModel

  datatype Json =
    | Null
    | Truth(b: bool)
    | Number(n: int)
    | Str(s: string)
    | Array(items: seq<Json>)
    | Object(fields: map<string, Json>)

  const ALIAS_FIELD := "connection_alias"

  /** `remove_connection_aliases`. */
  function Strip(value: Json): Json {
    match value
    case Object(fields) => Object(map name | name in fields && name != ALIAS_FIELD :: Strip(fields[name]))
    case Array(items) => Array(seq(|items|, i requires 0 <= i < |items| => Strip(items[i])))
    case _ => value
  }

  /** Two values that differ at most in alias fields, at any depth. */
  predicate AliasBlind(a: Json, b: Json) {
    match (a, b)
    case (Object(f), Object(g)) =>
      && (forall name :: name in f && name != ALIAS_FIELD ==> name in g && AliasBlind(f[name], g[name]))
      && (forall name :: name in g && name != ALIAS_FIELD ==> name in f)
    case (Array(x), Array(y)) => |x| == |y| && forall i :: 0 <= i < |x| ==> AliasBlind(x[i], y[i])
    case _ => a == b
  }

  /** Comparing stripped values is comparing values up to aliases. */
  lemma {:induction false} StripDecides(a: Json, b: Json)
    ensures Strip(a) == Strip(b) <==> AliasBlind(a, b)
  {
    match (a, b)
    case (Object(f), Object(g)) =>
      forall name | name in f && name in g && name != ALIAS_FIELD
        ensures Strip(f[name]) == Strip(g[name]) <==> AliasBlind(f[name], g[name]) {
        StripDecides(f[name], g[name]);
      }
      FieldsDecide(f, g);
    case (Array(x), Array(y)) =>
      if |x| == |y| {
        forall i | 0 <= i < |x| ensures Strip(x[i]) == Strip(y[i]) <==> AliasBlind(x[i], y[i]) {
          StripDecides(x[i], y[i]);
        }
        ItemsDecide(x, y);
      } else {
        assert |Strip(a).items| == |x| && |Strip(b).items| == |y|;
      }
    case _ =>
  }

  lemma FieldsDecide(f: map<string, Json>, g: map<string, Json>)
    ensures Strip(Object(f)) == Strip(Object(g)) <==>
              && (forall name :: name in f && name != ALIAS_FIELD ==> name in g && Strip(f[name]) == Strip(g[name]))
              && (forall name :: name in g && name != ALIAS_FIELD ==> name in f)
  {
    var p, q := Strip(Object(f)).fields, Strip(Object(g)).fields;
    assert forall name :: name in p <==> name in f && name != ALIAS_FIELD;
    assert forall name :: name in q <==> name in g && name != ALIAS_FIELD;
    assert forall name :: name in p ==> p[name] == Strip(f[name]);
    assert forall name :: name in q ==> q[name] == Strip(g[name]);
    if (forall name :: name in f && name != ALIAS_FIELD ==> name in g && Strip(f[name]) == Strip(g[name]))
       && (forall name :: name in g && name != ALIAS_FIELD ==> name in f) {
      assert p == q;
    }
    if p == q {
      forall name | name in f && name != ALIAS_FIELD ensures name in g && Strip(f[name]) == Strip(g[name]) {
        assert name in p && name in q;
      }
      forall name | name in g && name != ALIAS_FIELD ensures name in f { assert name in q && name in p; }
    }
  }

  lemma ItemsDecide(x: seq<Json>, y: seq<Json>)
    requires |x| == |y|
    ensures Strip(Array(x)) == Strip(Array(y)) <==> forall i :: 0 <= i < |x| ==> Strip(x[i]) == Strip(y[i])
  {
    var p, q := Strip(Array(x)).items, Strip(Array(y)).items;
    assert forall i :: 0 <= i < |x| ==> p[i] == Strip(x[i]) && q[i] == Strip(y[i]);
    if forall i :: 0 <= i < |x| ==> Strip(x[i]) == Strip(y[i]) { assert p == q; }
  }

  lemma {:induction false} BlindReflexive(a: Json)
    ensures AliasBlind(a, a)
  {
    match a
    case Object(f) => forall name | name in f ensures AliasBlind(f[name], f[name]) { BlindReflexive(f[name]); }
    case Array(x) => forall i | 0 <= i < |x| ensures AliasBlind(x[i], x[i]) { BlindReflexive(x[i]); }
    case _ =>
  }

  // -------------------------------------------------------------- serialising

  datatype Field = Field(name: string, value: Json)

  /** A struct's fields in order; a repeated name keeps the last value. */
  function FieldMap(fields: seq<Field>): map<string, Json> {
    if fields == [] then map[]
    else
      var last := fields[|fields| - 1];
      FieldMap(fields[..|fields| - 1])[last.name := last.value]
  }

  function Struct(fields: seq<Field>): Json { Object(FieldMap(fields)) }

  function TextJson(text: string): Json { Str(text) }

  function OptionJson(text: Option<string>): Json { match text case Some(t) => Str(t) case None => Null }

  function TextsJson(texts: seq<string>): Json { Array(MapSeq(TextJson, texts)) }

  function KeyJson(k: ObjectKey): Json {
    Struct([Field("source_kind", Str(k.sourceKind)), Field(ALIAS_FIELD, Str(k.connectionAlias)),
            Field("database", Str(k.database)),
            Field("schema", Str(k.schema)), Field("object_kind", Str(KindText(k.objectKind))),
            Field("object_name", Str(k.objectName)),
            Field("sub_object", OptionJson(k.subObject))])
  }

  function OptionKeyJson(k: Option<ObjectKey>): Json { match k case Some(key) => KeyJson(key) case None => Null }

  function KeysJson(keys: seq<ObjectKey>): Json { Array(MapSeq(KeyJson, keys)) }

  function TableKindText(kind: TableKind): string {
    match kind
    case BaseTable => "base_table" case Temporary => "temporary" case Foreign => "foreign"
    case Partitioned => "partitioned"
    case Partition => "partition" case Virtual => "virtual" case Shadow => "shadow"
  }

  function ConstraintKindText(kind: ConstraintKind): string {
    match kind
    case PrimaryKeyRule => "primary_key" case ForeignKeyRule => "foreign_key" case UniqueRule => "unique"
    case CheckRule => "check"
  }

  function RoutineKindText(kind: RoutineKind): string {
    match kind case Function => "function" case Procedure => "procedure"
  }

  function ValueJson(value: MetadataValue): Json {
    match value
    case Boolean(b) => Struct([Field("type", Str("boolean")), Field("value", Truth(b))])
    case Integer(i) => Struct([Field("type", Str("integer")), Field("value", Number(i))])
    case Unsigned(n) => Struct([Field("type", Str("unsigned")), Field("value", Number(n))])
    case Text(s) => Struct([Field("type", Str("string")), Field("value", Str(s))])
    case TextList(l) => Struct([Field("type", Str("string_list")), Field("value", TextsJson(l))])
  }

  function PropertiesJson(properties: Properties): Json {
    Object(map name | name in properties :: ValueJson(properties[name]))
  }

  /** Absent definitions and empty property maps are not written. */
  function DefinitionFields(definition: Option<string>, properties: Properties): seq<Field> {
    (match definition case Some(text) => [Field("definition", Str(text))] case None => [])
    + (if |properties| == 0 then [] else [Field("properties", PropertiesJson(properties))])
  }

  function AnnotationJson(a: ObjectAnnotation): Json {
    Struct([Field("object_key", KeyJson(a.objectKey))] + DefinitionFields(a.definition, a.properties))
  }

  function ContentFields(content: GraphObject): seq<Field> {
    match content
    case OfDatabase(o) => [Field("key", KeyJson(o.key)), Field("name", Str(o.name))]
    case OfSchema(o) => [Field("key", KeyJson(o.key)), Field("database_key", KeyJson(o.databaseKey)),
                         Field("name", Str(o.name))]
    case OfTable(o) =>
      [Field("key", KeyJson(o.key)), Field("schema_key", KeyJson(o.schemaKey)), Field("name", Str(o.name)),
       Field("kind", Str(TableKindText(o.kind)))]
    case OfColumn(o) =>
      [Field("key", KeyJson(o.key)), Field("table_key", KeyJson(o.tableKey)), Field("name", Str(o.name)),
       Field("ordinal_position", Number(o.ordinalPosition)), Field("data_type", Str(o.dataType)),
       Field("is_nullable", Truth(o.isNullable)),
       Field("default_value", OptionJson(o.defaultValue)), Field("is_generated", Truth(o.isGenerated))]
    case OfConstraint(o) =>
      [Field("key", KeyJson(o.key)), Field("table_key", KeyJson(o.tableKey)), Field("name", Str(o.name)),
       Field("kind", Str(ConstraintKindText(o.kind))), Field("columns", KeysJson(o.columns)),
       Field("referenced_table_key", OptionKeyJson(o.referencedTableKey)),
       Field("referenced_columns", KeysJson(o.referencedColumns)),
       Field("expression", OptionJson(o.expression))]
    case OfIndex(o) =>
      [Field("key", KeyJson(o.key)), Field("table_key", KeyJson(o.tableKey)), Field("name", Str(o.name)),
       Field("columns", KeysJson(o.columns)),
       Field("is_unique", Truth(o.isUnique)), Field("is_primary", Truth(o.isPrimary)),
       Field("predicate", OptionJson(o.filter)),
       Field("expression", OptionJson(o.expression))]
    case OfView(o) =>
      [Field("key", KeyJson(o.key)), Field("schema_key", KeyJson(o.schemaKey)), Field("name", Str(o.name)),
       Field("definition", OptionJson(o.definition)), Field("depends_on", KeysJson(o.dependsOn))]
    case OfTrigger(o) =>
      [Field("key", KeyJson(o.key)), Field("table_key", KeyJson(o.tableKey)), Field("name", Str(o.name)),
       Field("timing", OptionJson(o.timing)),
       Field("events", TextsJson(o.events)), Field("definition", OptionJson(o.definition)),
       Field("executes_routine_key", OptionKeyJson(o.executesRoutineKey))]
    case OfRoutine(o) =>
      [Field("key", KeyJson(o.key)), Field("schema_key", KeyJson(o.schemaKey)), Field("name", Str(o.name)),
       Field("kind", Str(RoutineKindText(o.kind))), Field("definition", OptionJson(o.definition)),
       Field("depends_on", KeysJson(o.dependsOn))]
    case OfMetadata(o) =>
      [Field("key", KeyJson(o.key)), Field("parent_key", OptionKeyJson(o.parentKey)), Field("name", Str(o.name))]
      + (match o.extensionKind case Some(text) => [Field("extension_kind", Str(text))] case None => [])
      + DefinitionFields(o.definition, o.properties)
  }

  /** `node_payload_json`: the object's fields, with its annotation added under its own name. */
  function PayloadJson(payload: NodePayload): Json {
    Struct(ContentFields(payload.content)
           + (match payload.annotation case Some(a) => [Field("canonical_annotation", AnnotationJson(a))]
           case None => []))
  }

  // ---------------------------------------------------------- alias renaming

  /** Structs with the same field names compare field by field. */
  predicate FieldsBlind(a: seq<Field>, b: seq<Field>) {
    |a| == |b| && forall i :: 0 <= i < |a| ==>
      a[i].name == b[i].name && (a[i].name == ALIAS_FIELD || AliasBlind(a[i].value, b[i].value))
  }

  lemma {:induction false} StructBlind(a: seq<Field>, b: seq<Field>)
    requires FieldsBlind(a, b)
    ensures AliasBlind(Struct(a), Struct(b))
    ensures forall name :: name in FieldMap(a) <==> name in FieldMap(b)
  {
    if a != [] {
      var n := |a| - 1;
      StructBlind(a[..n], b[..n]);
      var f, g := FieldMap(a[..n]), FieldMap(b[..n]);
      assert AliasBlind(Object(f), Object(g));
      UpdateBlind(f, g, a[n].name, a[n].value, b[n].value);
    }
  }

  lemma UpdateBlind(f: map<string, Json>, g: map<string, Json>, name: string, x: Json, y: Json)
    requires AliasBlind(Object(f), Object(g)) && (name == ALIAS_FIELD || AliasBlind(x, y))
    ensures AliasBlind(Object(f[name := x]), Object(g[name := y]))
  {
  }

  lemma ArrayBlind(a: seq<Json>, b: seq<Json>)
    requires |a| == |b| && forall i :: 0 <= i < |a| ==> AliasBlind(a[i], b[i])
    ensures AliasBlind(Array(a), Array(b))
  {
  }
}
