/** Stable object keys: the versioned, escaped printer and the parser of
    crates/database-memory-core/src/lib.rs. */
module ObjectKeys {
  import opened Wrappers

  datatype ObjectKind =
    | Database | Schema | Table | Column
    | PrimaryKey | ForeignKey | UniqueConstraint | CheckConstraint
    | Index | View | ViewColumn | Trigger | Routine
    | MaterializedView | Sequence | RoutineParameter | UserDefinedType | Domain | EnumValue | Synonym
    | ExclusionConstraint | Event | Package | Principal | Policy | Extension

  datatype ObjectKey = ObjectKey(
    sourceKind: string,
    connectionAlias: string,
    database: string,
    schema: string,
    objectKind: ObjectKind,
    objectName: string,
    subObject: Option<string>)

  function KindText(kind: ObjectKind): string {
    match kind
    case Database => "database"
    case Schema => "schema"
    case Table => "table"
    case Column => "column"
    case PrimaryKey => "primary_key"
    case ForeignKey => "foreign_key"
    case UniqueConstraint => "unique_constraint"
    case CheckConstraint => "check_constraint"
    case Index => "index"
    case View => "view"
    case ViewColumn => "view_column"
    case Trigger => "trigger"
    case Routine => "routine"
    case MaterializedView => "materialized_view"
    case Sequence => "sequence"
    case RoutineParameter => "routine_parameter"
    case UserDefinedType => "user_defined_type"
    case Domain => "domain"
    case EnumValue => "enum_value"
    case Synonym => "synonym"
    case ExclusionConstraint => "exclusion_constraint"
    case Event => "event"
    case Package => "package"
    case Principal => "principal"
    case Policy => "policy"
    case Extension => "extension"
  }

  /** Length and first two characters, which already tell the kind names apart. */
  ghost function Shape(kind: ObjectKind): (nat, char, char) {
    match kind
    case Database => (8, 'd', 'a')
    case Schema => (6, 's', 'c')
    case Table => (5, 't', 'a')
    case Column => (6, 'c', 'o')
    case PrimaryKey => (11, 'p', 'r')
    case ForeignKey => (11, 'f', 'o')
    case UniqueConstraint => (17, 'u', 'n')
    case CheckConstraint => (16, 'c', 'h')
    case Index => (5, 'i', 'n')
    case View => (4, 'v', 'i')
    case ViewColumn => (11, 'v', 'i')
    case Trigger => (7, 't', 'r')
    case Routine => (7, 'r', 'o')
    case MaterializedView => (17, 'm', 'a')
    case Sequence => (8, 's', 'e')
    case RoutineParameter => (17, 'r', 'o')
    case UserDefinedType => (17, 'u', 's')
    case Domain => (6, 'd', 'o')
    case EnumValue => (10, 'e', 'n')
    case Synonym => (7, 's', 'y')
    case ExclusionConstraint => (20, 'e', 'x')
    case Event => (5, 'e', 'v')
    case Package => (7, 'p', 'a')
    case Principal => (9, 'p', 'r')
    case Policy => (6, 'p', 'o')
    case Extension => (9, 'e', 'x')
  }

  lemma ShapeOf(kind: ObjectKind)
    ensures var text := KindText(kind); |text| >= 4 && (|text|, text[0], text[1]) == Shape(kind)
  {
  }

  lemma KindTextInjective(a: ObjectKind, b: ObjectKind)
    requires KindText(a) == KindText(b)
    ensures a == b
  {
    ShapeOf(a);
    ShapeOf(b);
  }

  lemma KindTextsDistinct()
    ensures forall a, b :: KindText(a) == KindText(b) ==> a == b
  {
    forall a, b | KindText(a) == KindText(b) ensures a == b { KindTextInjective(a, b); }
  }

  function ParseKind(text: string): Option<ObjectKind> {
    if exists kind :: KindText(kind) == text then
      KindTextsDistinct();
      var kind :| KindText(kind) == text;
      Some(kind)
    else None
  }

  lemma KindTextParses(kind: ObjectKind)
    ensures ParseKind(KindText(kind)) == Some(kind)
  {
    KindTextsDistinct();
  }

  // --------------------------------------------------------------- printing

  predicate Reserved(part: string) { ':' in part || '%' in part }

  function Parts(key: ObjectKey): seq<string> {
    [key.sourceKind, key.connectionAlias, key.database, key.schema, KindText(key.objectKind), key.objectName]
    + (match key.subObject case Some(sub) => [sub] case None => [])
  }

  predicate Versioned(key: ObjectKey) { exists part :: part in Parts(key) && Reserved(part) }

  function Encode(part: string): string {
    if part == [] then []
    else (if part[0] == '%' then "%25" else if part[0] == ':' then "%3A" else [part[0]]) + Encode(part[1..])
  }

  function EncodeAll(parts: seq<string>): (r: seq<string>)
    ensures |r| == |parts|
  {
    if parts == [] then [] else [Encode(parts[0])] + EncodeAll(parts[1..])
  }

  function Join(parts: seq<string>): string {
    if |parts| == 0 then [] else if |parts| == 1 then parts[0] else parts[0] + ":" + Join(parts[1..])
  }

  /** The printed form: plain, or `v2:` and escaped parts when a part holds a reserved character. */
  function Print(key: ObjectKey): string {
    if Versioned(key) then "v2:" + Join(EncodeAll(Parts(key))) else Join(Parts(key))
  }

  // ---------------------------------------------------------------- parsing

  function Split(text: string): (parts: seq<string>)
    ensures |parts| > 0
  {
    if text == [] then [[]]
    else
      var rest := Split(text[1..]);
      if text[0] == ':' then [[]] + rest else [[text[0]] + rest[0]] + rest[1..]
  }

  function Decode(value: string): Option<string> {
    if value == [] then Some([])
    else if value[0] != '%' then Prepend(value[0], Decode(value[1..]))
    else if |value| < 3 then None
    else if value[1] == '2' && value[2] == '5' then Prepend('%', Decode(value[3..]))
    else if value[1] == '3' && (value[2] == 'A' || value[2] == 'a') then Prepend(':', Decode(value[3..]))
    else None
  }

  function Prepend(c: char, rest: Option<string>): Option<string> {
    match rest case Some(text) => Some([c] + text) case None => None
  }

  function PrependAll(buffer: string, rest: Option<string>): Option<string> {
    match rest case Some(text) => Some(buffer + text) case None => None
  }

  lemma PrependAllSteps(buffer: string, c: char, rest: Option<string>)
    ensures PrependAll(buffer, Prepend(c, rest)) == PrependAll(buffer + [c], rest)
    ensures PrependAll([], rest) == rest
    ensures PrependAll(buffer, Some([])) == Some(buffer)
  {
    if rest.Some? {
      assert buffer + ([c] + rest.value) == (buffer + [c]) + rest.value;
      assert [] + rest.value == rest.value;
    }
    assert buffer + [] == buffer;
  }

  function DecodeAll(parts: seq<string>): (r: Option<seq<string>>)
    ensures r.Some? ==> |r.value| == |parts|
  {
    if parts == [] then Some([])
    else
      match (Decode(parts[0]), DecodeAll(parts[1..]))
      case (Some(first), Some(rest)) => Some([first] + rest)
      case _ => None
  }

  function KeyOfParts(parts: seq<string>): Option<ObjectKey>
    requires |parts| == 6 || |parts| == 7
  {
    match ParseKind(parts[4])
    case Some(kind) =>
      Some(ObjectKey(parts[0], parts[1], parts[2], parts[3], kind, parts[5],
                     if |parts| == 7 then Some(parts[6]) else None))
    case None => None
  }

  function ParseParts(value: string, encoded: bool): Option<ObjectKey> {
    var raw := Split(value);
    if !(|raw| == 6 || |raw| == 7) || [] in raw then None
    else
      match if encoded then DecodeAll(raw) else Some(raw)
      case Some(parts) => if [] in parts then None else KeyOfParts(parts)
      case None => None
  }

  function Parse(text: string): Option<ObjectKey> {
    if "v2:" <= text then ParseParts(text[3..], true) else ParseParts(text, false)
  }

  // ------------------------------------------- the buffers of the original

  /** `decode_object_key_part`: reads the part once and appends to a buffer. */
  method DecodeObjectKeyPart(value: string) returns (decoded: Option<string>)
    ensures decoded == Decode(value)
  {
    var buffer := [];
    var at := 0;
    assert value[at..] == value;
    PrependAllSteps(buffer, ':', Decode(value));
    while at < |value|
      invariant at <= |value|
      invariant Decode(value) == PrependAll(buffer, Decode(value[at..]))
    {
      ghost var tail := value[at..];
      PrependAllSteps(buffer, '%', Decode(if |tail| >= 3 then tail[3..] else []));
      PrependAllSteps(buffer, ':', Decode(if |tail| >= 3 then tail[3..] else []));
      PrependAllSteps(buffer, tail[0], Decode(tail[1..]));
      assert tail[1..] == value[at + 1..];
      assert |tail| >= 3 ==> tail[3..] == value[at + 3..];
      if value[at] != '%' {
        buffer := buffer + [value[at]];
        at := at + 1;
      } else if at + 2 < |value| && value[at + 1] == '2' && value[at + 2] == '5' {
        buffer := buffer + ['%'];
        at := at + 3;
      } else if at + 2 < |value| && value[at + 1] == '3' && (value[at + 2] == 'A' || value[at + 2] == 'a') {
        buffer := buffer + [':'];
        at := at + 3;
      } else {
        return None;
      }
    }
    PrependAllSteps(buffer, ':', None);
    return Some(buffer);
  }

  /** `Display for ObjectKey`: chooses the form, then writes the parts one after another. */
  method Display(key: ObjectKey) returns (text: string)
    ensures text == Print(key)
  {
    if Versioned(key) {
      var body := WriteParts(Parts(key), true);
      text := "v2:" + body;
    } else {
      text := WriteParts(Parts(key), false);
    }
  }

  method WriteParts(parts: seq<string>, versioned: bool) returns (text: string)
    ensures text == Join(if versioned then EncodeAll(parts) else parts)
  {
    ghost var written := if versioned then EncodeAll(parts) else parts;
    text := [];
    assert written[0..] == written;
    for index := 0 to |parts|
      invariant text + Pending(written, index) == Join(written)
    {
      PendingStep(written, index);
      if versioned { EncodeAllAt(parts, index); }
      var separator := if index > 0 then ":" else [];
      assert text + ((separator + written[index]) + Pending(written, index + 1))
          == (text + separator + written[index]) + Pending(written, index + 1);
      text := text + separator + (if versioned then Encode(parts[index]) else parts[index]);
    }
    assert text + [] == text;
  }

  /** What is still to be written once the first `index` parts are. */
  ghost function Pending(parts: seq<string>, index: nat): string
    requires index <= |parts|
  {
    if index == |parts| then [] else (if index > 0 then ":" else []) + Join(parts[index..])
  }

  lemma PendingStep(parts: seq<string>, index: nat)
    requires index < |parts|
    ensures Pending(parts, index) == ((if index > 0 then ":" else []) + parts[index]) + Pending(parts, index + 1)
  {
    assert parts[index..][1..] == parts[index + 1..];
  }

  lemma {:induction false} EncodeAllAt(parts: seq<string>, i: nat)
    requires i < |parts|
    ensures EncodeAll(parts)[i] == Encode(parts[i])
  {
    if i > 0 { EncodeAllAt(parts[1..], i - 1); }
  }

  // ------------------------------------------------------------- properties

  lemma {:induction false} DecodeEncode(part: string)
    ensures Decode(Encode(part)) == Some(part)
  {
    if part != [] {
      DecodeEncode(part[1..]);
      var rest := Encode(part[1..]);
      assert part == [part[0]] + part[1..];
      if part[0] == '%' {
        assert ("%25" + rest)[3..] == rest;
      } else if part[0] == ':' {
        assert ("%3A" + rest)[3..] == rest;
      } else {
        assert ([part[0]] + rest)[1..] == rest;
      }
    }
  }

  lemma {:induction false} EncodeFacts(part: string)
    ensures ':' !in Encode(part)
    ensures Encode(part) == [] <==> part == []
    ensures Reserved(part) ==> '%' in Encode(part)
  {
    if part != [] {
      EncodeFacts(part[1..]);
      assert part == [part[0]] + part[1..];
    }
  }

  lemma {:induction false} DecodeAllEncodeAll(parts: seq<string>)
    ensures DecodeAll(EncodeAll(parts)) == Some(parts)
    ensures forall text :: text in EncodeAll(parts) ==> ':' !in text
    ensures [] in EncodeAll(parts) <==> [] in parts
    ensures (exists part :: part in parts && Reserved(part)) ==> exists text :: text in EncodeAll(parts) && '%' in text
  {
    if parts != [] {
      DecodeEncode(parts[0]);
      EncodeFacts(parts[0]);
      DecodeAllEncodeAll(parts[1..]);
      assert parts == [parts[0]] + parts[1..];
      var all, rest := EncodeAll(parts), EncodeAll(parts[1..]);
      assert all[1..] == rest && all[0] == Encode(parts[0]);
      assert forall text :: text in all <==> text == all[0] || text in rest;
    }
  }

  lemma {:induction false} SplitFirst(part: string, rest: string)
    requires ':' !in part
    ensures Split(part + ":" + rest) == [part] + Split(rest)
    ensures Split(part) == [part]
  {
    if part == [] {
      assert part + ":" + rest == ":" + rest;
      assert (":" + rest)[1..] == rest;
    } else {
      SplitFirst(part[1..], rest);
      var text := part + ":" + rest;
      assert text[1..] == part[1..] + ":" + rest;
      assert [text[0]] + part[1..] == part;
      assert ([part[1..]] + Split(rest))[1..] == Split(rest);
    }
  }

  lemma {:induction false} SplitJoin(parts: seq<string>)
    requires |parts| > 0 && forall part :: part in parts ==> ':' !in part
    ensures Split(Join(parts)) == parts
  {
    if |parts| == 1 {
      SplitFirst(parts[0], []);
    } else {
      SplitJoin(parts[1..]);
      SplitFirst(parts[0], Join(parts[1..]));
      assert parts == [parts[0]] + parts[1..];
    }
  }

  lemma {:induction false} JoinHolds(parts: seq<string>, c: char)
    requires c != ':'
    ensures c in Join(parts) <==> exists part :: part in parts && c in part
  {
    if |parts| > 1 {
      JoinHolds(parts[1..], c);
      assert parts == [parts[0]] + parts[1..];
      assert Join(parts) == parts[0] + ":" + Join(parts[1..]);
    }
  }

  lemma PartsOfKey(key: ObjectKey)
    ensures KeyOfParts(Parts(key)) == Some(key)
  {
    KindTextParses(key.objectKind);
  }

  lemma PartsInjective(a: ObjectKey, b: ObjectKey)
    requires Parts(a) == Parts(b)
    ensures a == b
  {
    PartsOfKey(a);
    PartsOfKey(b);
  }

  /** What the printed text splits into. */
  lemma PrintSplits(key: ObjectKey)
    ensures Versioned(key) ==> Split(Print(key)[3..]) == EncodeAll(Parts(key))
    ensures !Versioned(key) ==> Split(Print(key)) == Parts(key)
    ensures Versioned(key) <==> '%' in Print(key)
  {
    var parts := Parts(key);
    if Versioned(key) {
      DecodeAllEncodeAll(parts);
      SplitJoin(EncodeAll(parts));
      JoinHolds(EncodeAll(parts), '%');
    } else {
      forall part | part in parts ensures ':' !in part && '%' !in part { assert !Reserved(part); }
      SplitJoin(parts);
      JoinHolds(parts, '%');
    }
  }

  /** Printing a key keeps every character of its components but the reserved ones, and adds none else
      outside the marks. */
  lemma PrintKeeps(key: ObjectKey, c: char)
    requires c !in "v2:%35A"
    ensures c in Print(key) <==> exists part :: part in Parts(key) && c in part
  {
    if Versioned(key) {
      EncodeAllKeeps(Parts(key), c);
      JoinHolds(EncodeAll(Parts(key)), c);
    } else {
      JoinHolds(Parts(key), c);
    }
  }

  lemma {:induction false} EncodeKeeps(part: string, c: char)
    requires c !in "v2:%35A"
    ensures c in Encode(part) <==> c in part
  {
    if part != [] {
      EncodeKeeps(part[1..], c);
      assert part == [part[0]] + part[1..];
    }
  }

  lemma {:induction false} EncodeAllKeeps(parts: seq<string>, c: char)
    requires c !in "v2:%35A"
    ensures (exists text :: text in EncodeAll(parts) && c in text) <==> exists part :: part in parts && c in part
  {
    if parts != [] {
      EncodeKeeps(parts[0], c);
      EncodeAllKeeps(parts[1..], c);
      assert parts == [parts[0]] + parts[1..];
    }
  }

  /** No two keys print alike, whatever their components hold. */
  lemma PrintInjective(a: ObjectKey, b: ObjectKey)
    requires Print(a) == Print(b)
    ensures a == b
  {
    PrintSplits(a);
    PrintSplits(b);
    DecodeAllEncodeAll(Parts(a));
    DecodeAllEncodeAll(Parts(b));
    PartsInjective(a, b);
  }

  /** The keys the parser can read back: no empty component, and not the bare source kind `v2`,
      which the parser takes for the version mark. */
  predicate Readable(key: ObjectKey) {
    [] !in Parts(key) && (key.sourceKind != "v2" || Versioned(key))
  }

  /** Reading the parts of a printed key back. */
  lemma ParsePartsOf(key: ObjectKey, value: string, encoded: bool)
    requires Split(value) == if encoded then EncodeAll(Parts(key)) else Parts(key)
    ensures ParseParts(value, encoded) == if [] in Parts(key) then None else Some(key)
  {
    DecodeAllEncodeAll(Parts(key));
    PartsOfKey(key);
  }

  /** A plain text whose source kind is the version mark loses its first part to the parser. */
  lemma ParseWithoutSource(key: ObjectKey, value: string)
    requires Split(value) == Parts(key)[1..]
    ensures ParseParts(value, true) != Some(key)
    ensures key.subObject == None ==> ParseParts(value, true) == None
  {
    assert |Split(value)| == |Parts(key)| - 1;
  }

  /** Printed keys begin with the version mark only where a component is reserved. */
  predicate OwnSource(key: ObjectKey) { key.sourceKind != "v2" || Versioned(key) }

  /** Apart from the version mark as a source kind, only an empty component makes a printed key
      unreadable, and then the parser refuses it. */
  lemma ParseOwnPrint(key: ObjectKey)
    requires OwnSource(key)
    ensures Parse(Print(key)) == if [] in Parts(key) then None else Some(key)
  {
    PrintSplits(key);
    if Versioned(key) {
      ParsePartsOf(key, Print(key)[3..], true);
    } else {
      PlainHead(key);
      ParsePartsOf(key, Print(key), false);
    }
  }

  /** Exactly the readable keys survive printing and parsing. */
  lemma ParsePrint(key: ObjectKey)
    ensures Parse(Print(key)) == Some(key) <==> Readable(key)
  {
    var parts, text := Parts(key), Print(key);
    PrintSplits(key);
    if Versioned(key) {
      ParsePartsOf(key, text[3..], true);
    } else {
      ParsePartsOf(key, text, false);
      PlainHead(key);
      if "v2:" <= text {
        VersionMark(parts[0], Join(parts[1..]));
        ParseWithoutSource(key, text[3..]);
      }
    }
  }

  lemma PlainHead(key: ObjectKey)
    requires !Versioned(key)
    ensures Print(key) == key.sourceKind + ":" + Join(Parts(key)[1..])
    ensures Split(Join(Parts(key)[1..])) == Parts(key)[1..]
    ensures ':' !in key.sourceKind
    ensures "v2:" <= Print(key) <==> key.sourceKind == "v2"
  {
    var parts := Parts(key);
    forall part | part in parts ensures ':' !in part { assert !Reserved(part); }
    assert parts[0] in parts;
    assert forall part :: part in parts[1..] ==> part in parts;
    SplitJoin(parts[1..]);
    if "v2:" <= Print(key) { VersionMark(parts[0], Join(parts[1..])); }
  }

  lemma VersionMark(source: string, rest: string)
    requires ':' !in source && "v2:" <= source + ":" + rest
    ensures source == "v2" && (source + ":" + rest)[3..] == rest
  {
    var text := source + ":" + rest;
    assert text[0] == 'v' && text[1] == '2' && text[2] == ':';
    assert text[|source|] == ':';
    assert forall i :: 0 <= i < |source| ==> text[i] == source[i];
    assert forall i :: 0 <= i < |source| ==> source[i] != ':';
    assert |source| == 2;
  }

  /** Text the parser accepted need not be the printed form of its key, but re-reading the printed
      form gives the same key unless the source kind is the bare version mark. */
  lemma ReparseStable(text: string)
    requires Parse(text).Some?
    ensures var key := Parse(text).value;
            Parse(Print(key)) == Some(key) <==> key.sourceKind != "v2" || Versioned(key)
  {
    var key := Parse(text).value;
    ParsePrint(key);
    var encoded := "v2:" <= text;
    var raw := Split(if encoded then text[3..] else text);
    var parts := if encoded then DecodeAll(raw).value else raw;
    assert Parts(key) == parts;
  }

  /** The family that fails: with source kind `v2` and no reserved character, a key without a
      sub-object can be read from text, but what it is then printed as is refused. */
  lemma VersionMarkAsSourceKind(key: ObjectKey)
    requires key.sourceKind == "v2" && key.subObject == None
    requires !Versioned(key) && [] !in Parts(key)
    ensures Parse("v2:" + Print(key)) == Some(key) && Parse(Print(key)) == None
  {
    var parts, text := Parts(key), "v2:" + Print(key);
    PlainHead(key);
    PrintSplits(key);
    VersionMark(key.sourceKind, Join(parts[1..]));
    ParseWithoutSource(key, Print(key)[3..]);
    assert text[3..] == Print(key);
    PlainDecodes(parts);
    PartsOfKey(key);
  }

  lemma {:induction false} PlainDecodes(parts: seq<string>)
    requires forall part :: part in parts ==> !Reserved(part)
    ensures DecodeAll(parts) == Some(parts)
  {
    if parts != [] {
      PlainDecode(parts[0]);
      PlainDecodes(parts[1..]);
      assert parts == [parts[0]] + parts[1..];
    }
  }

  lemma {:induction false} PlainDecode(part: string)
    requires !Reserved(part)
    ensures Decode(part) == Some(part)
  {
    if part != [] {
      PlainDecode(part[1..]);
      assert part == [part[0]] + part[1..];
    }
  }

  // ------------------------------------------------------------ the text itself

  lemma JoinFirst(first: string, rest: seq<string>)
    requires rest != []
    ensures Join([first] + rest) == first + ":" + Join(rest)
  {
    assert ([first] + rest)[1..] == rest;
  }

  lemma EncodeAllFirst(first: string, rest: seq<string>)
    ensures EncodeAll([first] + rest) == [Encode(first)] + EncodeAll(rest)
  {
    assert ([first] + rest)[1..] == rest;
  }

  lemma JoinEncoded(first: string, rest: seq<string>)
    requires rest != []
    ensures Join(EncodeAll([first] + rest)) == Encode(first) + ":" + Join(EncodeAll(rest))
  {
    EncodeAllFirst(first, rest);
    JoinFirst(Encode(first), EncodeAll(rest));
  }

  lemma {:induction false} PlainEncodes(part: string)
    requires !Reserved(part)
    ensures Encode(part) == part
  {
    if part != [] {
      PlainEncodes(part[1..]);
      assert part == [part[0]] + part[1..];
    }
  }

  lemma {:induction false} PlainEncodesAll(parts: seq<string>)
    requires forall part :: part in parts ==> !Reserved(part)
    ensures EncodeAll(parts) == parts
  {
    if parts != [] {
      PlainEncodes(parts[0]);
      PlainEncodesAll(parts[1..]);
      assert parts == [parts[0]] + parts[1..];
    }
  }

  lemma EncodeFirst(c: char, rest: string)
    ensures Encode([c] + rest) == (match c case '%' => "%25" case ':' => "%3A" case _ => [c]) + Encode(rest)
  {
    assert ([c] + rest)[1..] == rest;
  }

  /** Escaping works character by character: `%` and `:` are written as `%25` and `%3A`, others as they are. */
  lemma {:induction false} EscapedForm(before: string, c: char, after: string)
    ensures Encode(before + [c] + after)
            == Encode(before) + (match c case '%' => "%25" case ':' => "%3A" case _ => [c]) + Encode(after)
  {
    hide Encode;
    EncodeFirst(c, after);
    if before == [] {
      assert before + [c] + after == [c] + after && Encode(before) == [] by { EncodeFacts(before); }
    } else {
      EscapedForm(before[1..], c, after);
      EncodeFirst(before[0], before[1..]);
      EncodeFirst(before[0], before[1..] + [c] + after);
      assert before == [before[0]] + before[1..];
      assert before + [c] + after == [before[0]] + (before[1..] + [c] + after);
    }
  }

  /** How one character may be written in an escaped part. */
  ghost predicate WritesAs(piece: string, c: char) {
    match c
    case '%' => piece == "%25"
    case ':' => piece == "%3A" || piece == "%3a" || piece == ":"
    case _ => piece == [c]
  }

  function Concat(pieces: seq<string>): string {
    if pieces == [] then [] else pieces[0] + Concat(pieces[1..])
  }

  /** The text is the part written character by character. */
  ghost predicate Spells(pieces: seq<string>, value: string, part: string) {
    Concat(pieces) == value && |pieces| == |part| && forall i :: 0 <= i < |part| ==> WritesAs(pieces[i], part[i])
  }

  lemma {:induction false} DecodedIsSpelled(value: string, part: string) returns (pieces: seq<string>)
    requires Decode(value) == Some(part)
    ensures Spells(pieces, value, part)
    decreases |value|
  {
    if value == [] { return []; }
    var width := if value[0] == '%' then 3 else 1;
    var rest := DecodedIsSpelled(value[width..], part[1..]);
    assert value == value[..width] + value[width..];
    pieces := [value[..width]] + rest;
    assert pieces[1..] == rest;
    forall i | 0 <= i < |part| ensures WritesAs(pieces[i], part[i]) {
      if i > 0 { assert WritesAs(rest[i - 1], part[1..][i - 1]); }
    }
  }

  lemma {:induction false} SpelledIsDecoded(pieces: seq<string>, value: string, part: string)
    requires Spells(pieces, value, part)
    ensures Decode(value) == Some(part)
  {
    if part != [] {
      assert WritesAs(pieces[0], part[0]) && value == pieces[0] + Concat(pieces[1..]);
      assert value[|pieces[0]|..] == Concat(pieces[1..]);
      SpelledIsDecoded(pieces[1..], value[|pieces[0]|..], part[1..]);
      assert part == [part[0]] + part[1..];
    }
  }

  /** Decoding accepts just the texts made of plain characters and the three escapes. */
  lemma DecodeWhen(value: string, part: string)
    ensures Decode(value) == Some(part) <==> exists pieces :: Spells(pieces, value, part)
  {
    if Decode(value) == Some(part) { var pieces := DecodedIsSpelled(value, part); }
    if pieces :| Spells(pieces, value, part) { SpelledIsDecoded(pieces, value, part); }
  }

  /** A key is printed as its escaped components in order, separated by colons, after the mark `v2:` when
      any of them needs escaping. */
  lemma PrintedForm(key: ObjectKey)
    ensures Print(key) == (if exists part :: part in Parts(key) && (':' in part || '%' in part) then "v2:" else "")
                          + (Encode(key.sourceKind) + ":" + (Encode(key.connectionAlias) + ":"
                          + (Encode(key.database) + ":" + (Encode(key.schema) + ":"
                          + (Encode(KindText(key.objectKind)) + ":"
                          + match key.subObject
                            case Some(sub) => Encode(key.objectName) + ":" + Encode(sub)
                            case None => Encode(key.objectName))))))
  {
    hide KindText, Encode, EncodeAll, Join;
    var last := match key.subObject case Some(sub) => [key.objectName] + [sub] case None => [key.objectName];
    var kind := [KindText(key.objectKind)] + last;
    var schema := [key.schema] + kind;
    var database := [key.database] + schema;
    var alias := [key.connectionAlias] + database;
    assert Parts(key) == [key.sourceKind] + alias;
    JoinEncoded(key.sourceKind, alias);
    JoinEncoded(key.connectionAlias, database);
    JoinEncoded(key.database, schema);
    JoinEncoded(key.schema, kind);
    JoinEncoded(KindText(key.objectKind), last);
    if key.subObject.Some? { JoinEncoded(key.objectName, [key.subObject.value]); LastEncoded(key.subObject.value); }
    LastEncoded(key.objectName);
    if !Versioned(key) { PlainEncodesAll(Parts(key)); }
  }

  lemma LastEncoded(part: string)
    ensures Join(EncodeAll([part])) == Encode(part)
  {
  }
}
