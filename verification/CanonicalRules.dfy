/** What makes a canonical snapshot (typed objects plus metadata) well formed, and the validator that
    collects its issues (canonical_validation.rs). */
module CanonicalRules {
  import opened Wrappers
  import opened Lists
  import opened ObjectKeys
  import opened SchemaModel
  import opened TextRules
  import opened SnapshotRules
  import opened SnapshotValidation

  const MAX_DEFINITION_BYTES: nat := 1_048_576
  const MAX_PROPERTIES_PER_ITEM: nat := 256
  const MAX_PROPERTY_KEY_BYTES: nat := 256
  const MAX_PROPERTY_STRING_BYTES: nat := 65_536
  const MAX_PROPERTY_LIST_ITEMS: nat := 4_096

  predicate ValueFits(value: MetadataValue) {
    match value
    case Text(s) => ByteLength(s) <= MAX_PROPERTY_STRING_BYTES
    case TextList(l) => |l| <= MAX_PROPERTY_LIST_ITEMS
        && forall s :: s in l ==> ByteLength(s) <= MAX_PROPERTY_STRING_BYTES
    case _ => true
  }

  predicate PropertyNameOk(name: string) {
    !Blank(name) && ByteLength(name) <= MAX_PROPERTY_KEY_BYTES && !HasControl(name)
  }

  predicate PropertiesOk(properties: Properties) {
    && |properties| <= MAX_PROPERTIES_PER_ITEM
    && forall name :: name in properties ==> PropertyNameOk(name) && ValueFits(properties[name])
  }

  predicate MetadataKind(kind: ObjectKind) {
    kind !in {Database, Schema, Table, Column, ForeignKey, View}
  }

  /** The kinds of parent a metadata object may have; none listed means any. */
  function ParentKinds(kind: ObjectKind): Option<set<ObjectKind>> {
    match kind
    case ViewColumn => Some({View, MaterializedView})
    case MaterializedView => Some({Schema})
    case Sequence => Some({Schema})
    case UserDefinedType => Some({Schema})
    case Domain => Some({Schema})
    case Synonym => Some({Schema})
    case Package => Some({Schema})
    case PrimaryKey => Some({MaterializedView})
    case UniqueConstraint => Some({MaterializedView})
    case Routine => Some({Package, UserDefinedType})
    case CheckConstraint => Some({Domain, MaterializedView})
    case Index => Some({MaterializedView})
    case Event => Some({Database, Schema})
    case RoutineParameter => Some({Routine})
    case EnumValue => Some({UserDefinedType})
    case ExclusionConstraint => Some({Table})
    case Principal => Some({Database, Schema})
    case Policy => Some({Schema, Table, View})
    case Trigger => Some({Database, Schema, Table, View, MaterializedView})
    case _ => None
  }

  predicate EndpointKindsOk(kind: MetadataRelationshipKind, from: ObjectKind, to: ObjectKind) {
    match kind
    case DependsOn => true
    case ExtensionRelation(_) => true
    case UsesType =>
      from in {Column, ViewColumn, Routine, RoutineParameter, Sequence, UserDefinedType, Extension}
          && to in {UserDefinedType, Domain}
    case UsesSequence => from == Column && to == Sequence
    case PartitionOf => from == Table && to == Table
    case InheritsFrom => (from == Table && to == Table) || (from == UserDefinedType && to == UserDefinedType)
    case SynonymFor => from == Synonym
    case HasParameter => from in {Routine, Package} && to == RoutineParameter
    case ReturnsType => from == Routine && to in {UserDefinedType, Domain}
    case OwnedBy => to == Principal
    case Materializes => from == MaterializedView && to in {Table, View}
    case Invokes => from in {Routine, Trigger, Event} && to == Routine
    case IncludesColumn => from == Index && to in {Column, ViewColumn}
    case ExcludesWith => from == ExclusionConstraint && to == Column
  }

  function MetadataEntries(objects: seq<MetadataObject>): (r: seq<Entry>)
    ensures |r| == |objects|
  {
    seq(|objects|, i requires 0 <= i < |objects| => Entry(objects[i].key, objects[i].key.objectKind))
  }

  /** All objects of a canonical snapshot: the typed ones, then the metadata ones. */
  function AllEntries(s: CanonicalSchemaSnapshot): seq<Entry> {
    Entries(s.schema) + MetadataEntries(s.metadata.objects)
  }

  predicate MetadataObjectOk(schema: SchemaSnapshot, o: MetadataObject) {
    && MetadataKind(o.key.objectKind)
    && o.key.sourceKind == schema.database.key.sourceKind && o.key.connectionAlias == schema.connectionAlias
    && o.key.database == schema.database.key.database
    && !Blank(o.name)
    && (if o.key.objectKind == Extension then o.extensionKind.Some? && PropertyNameOk(o.extensionKind.value)
        else o.extensionKind.None?)
    && Fits(o.definition, MAX_DEFINITION_BYTES) && PropertiesOk(o.properties)
  }

  predicate ParentOk(known: set<ObjectKey>, o: MetadataObject) {
    && o.parentKey.Some? && o.parentKey.value in known
    && o.key.sourceKind == o.parentKey.value.sourceKind && o.key.connectionAlias == o.parentKey.value.connectionAlias
    && o.key.database == o.parentKey.value.database
    && (ParentKinds(o.key.objectKind).Some? ==> o.parentKey.value.objectKind in ParentKinds(o.key.objectKind).value)
  }

  predicate AnnotationOk(known: set<ObjectKey>, a: ObjectAnnotation) {
    && a.objectKey in known && !(a.definition.None? && |a.properties| == 0)
    && Fits(a.definition, MAX_DEFINITION_BYTES) && PropertiesOk(a.properties)
  }

  predicate RelationshipOk(known: set<ObjectKey>, r: MetadataRelationship) {
    && r.fromKey in known && r.toKey in known
    && EndpointKindsOk(r.kind, r.fromKey.objectKind, r.toKey.objectKind)
    && r.ordinal != Some(0)
    && (r.kind.ExtensionRelation? ==> PropertyNameOk(r.kind.name))
    && PropertiesOk(r.properties)
  }

  function AnnotatedKeys(annotations: seq<ObjectAnnotation>): (r: seq<ObjectKey>)
    ensures |r| == |annotations|
  {
    seq(|annotations|, i requires 0 <= i < |annotations| => annotations[i].objectKey)
  }

  function Identities(relationships: seq<MetadataRelationship>): (r: seq<(MetadataRelationshipKind, ObjectKey,
                                                                          ObjectKey, Option<nat>)>)
    ensures |r| == |relationships|
  {
    seq(|relationships|, i requires 0 <= i < |relationships| =>
      (relationships[i].kind, relationships[i].fromKey, relationships[i].toKey, relationships[i].ordinal))
  }

  predicate MetadataOk(s: CanonicalSchemaSnapshot, known: set<ObjectKey>) {
    && (forall o :: o in s.metadata.objects ==> MetadataObjectOk(s.schema, o) && ParentOk(known, o))
    && (forall a :: a in s.metadata.annotations ==> AnnotationOk(known, a))
    && NoDuplicates(AnnotatedKeys(s.metadata.annotations))
    && (forall r :: r in s.metadata.relationships ==> RelationshipOk(known, r))
    && NoDuplicates(Identities(s.metadata.relationships))
  }

  predicate CanonicalWellFormed(s: CanonicalSchemaSnapshot) {
    WellFormed(s.schema) && NoDuplicates(KeysOf(AllEntries(s))) && MetadataOk(s, KnownKeys(AllEntries(s)))
  }

  // ------------------------------------------------------------ the validator

  /** Adds an issue under a condition. */
  function Noted(issues: seq<Issue>, failed: bool, code: string, key: ObjectKey): seq<Issue> {
    if failed then issues + [Issue(code, Print(key))] else issues
  }

  method ValidateMetadataObjects(s: CanonicalSchemaSnapshot, known0: map<string, ObjectKey>)
    returns (known: map<string, ObjectKey>, issues: seq<Issue>)
    requires Files(known0)
    ensures Files(known) && known.Values == known0.Values + KnownKeys(MetadataEntries(s.metadata.objects))
    ensures issues == [] <==> ObjectsGood(s.schema, known0.Values, s.metadata.objects)
  {
    known, issues := known0, [];
    var objects := s.metadata.objects;
    for i := 0 to |objects|
      invariant Files(known) && known.Values == known0.Values + KnownKeys(MetadataEntries(objects[..i]))
      invariant issues == [] <==> ObjectsGood(s.schema, known0.Values, objects[..i])
    {
      known, issues := FileMetadataObject(s.schema, known0.Values, objects[..i], objects[i], known, issues);
      PrefixLast(objects, i);
    }
    WholePrefix(objects);
  }

  /** Validates an object against the keys filed so far and files its own. */
  method FileMetadataObject(schema: SchemaSnapshot, ghost base: set<ObjectKey>, ghost before: seq<MetadataObject>,
                            o: MetadataObject,
                            known0: map<string, ObjectKey>, issues0: seq<Issue>)
    returns (known: map<string, ObjectKey>, issues: seq<Issue>)
    requires Files(known0) && known0.Values == base + KnownKeys(MetadataEntries(before))
    requires issues0 == [] <==> ObjectsGood(schema, base, before)
    ensures Files(known) && known.Values == base + KnownKeys(MetadataEntries(before + [o]))
    ensures issues == [] <==> ObjectsGood(schema, base, before + [o])
  {
    issues := ValidateMetadataObject(schema, base, before, o, known0, issues0);
    known := FileKey(known0, o.key);
    KnownLonger(before, o);
  }

  predicate ObjectsGood(schema: SchemaSnapshot, base: set<ObjectKey>, objects: seq<MetadataObject>) {
    && NoDuplicates(KeysOf(MetadataEntries(objects)))
    && forall o :: o in objects ==> o.key !in base && MetadataObjectOk(schema, o)
  }

  method ValidateMetadataObject(schema: SchemaSnapshot, ghost base: set<ObjectKey>, ghost before: seq<MetadataObject>,
                                o: MetadataObject,
                                known: map<string, ObjectKey>, issues0: seq<Issue>)
    returns (issues: seq<Issue>)
    requires Files(known) && known.Values == base + KnownKeys(MetadataEntries(before))
    requires issues0 == [] <==> ObjectsGood(schema, base, before)
    ensures issues == [] <==> ObjectsGood(schema, base, before + [o])
  {
    Filed(known, o.key);
    var failed := CheckMetadataObject(schema, o);
    issues := Noted(issues0, Print(o.key) in known, "duplicate_object_key", o.key);
    issues := Noted(issues, failed, "metadata_object_invalid", o.key);
    ObjectsLonger(schema, base, before, o);
  }

  /** Identity, definition and properties of one metadata object. */
  method CheckMetadataObject(schema: SchemaSnapshot, o: MetadataObject) returns (failed: bool)
    ensures failed <==> !MetadataObjectOk(schema, o)
  {
    failed := !MetadataKind(o.key.objectKind);
    failed := failed || o.key.sourceKind != schema.database.key.sourceKind
        || o.key.connectionAlias != schema.connectionAlias;
    failed := failed || o.key.database != schema.database.key.database;
    failed := failed || Blank(o.name);
    if o.key.objectKind == Extension {
      failed := failed || o.extensionKind.None? || !PropertyNameOk(o.extensionKind.value);
    } else {
      failed := failed || o.extensionKind.Some?;
    }
    failed := failed || !Fits(o.definition, MAX_DEFINITION_BYTES);
    failed := failed || !PropertiesOk(o.properties);
  }

  lemma FileMore(before: map<string, ObjectKey>, after: map<string, ObjectKey>, key: ObjectKey)
    requires Files(before) && after == before[Print(key) := key]
    ensures Files(after) && after.Values == before.Values + {key}
  {
    forall k ensures k in after.Values <==> k in before.Values || k == key {
      Filed(before, k);
      Filed(after, k);
      if k in before.Values { assert after[Print(k)] == k; }
      if k == key { assert after[Print(key)] == k; }
    }
  }

  lemma KnownLonger(before: seq<MetadataObject>, last: MetadataObject)
    ensures KnownKeys(MetadataEntries(before + [last])) == KnownKeys(MetadataEntries(before)) + {last.key}
  {
    assert MetadataEntries(before + [last]) == MetadataEntries(before) + [Entry(last.key, last.key.objectKind)];
    EntriesLonger(MetadataEntries(before), Entry(last.key, last.key.objectKind));
  }

  lemma ObjectsLonger(schema: SchemaSnapshot, base: set<ObjectKey>, before: seq<MetadataObject>, last: MetadataObject)
    ensures ObjectsGood(schema, base, before + [last])
       <==> && ObjectsGood(schema, base, before) && last.key !in base + KnownKeys(MetadataEntries(before))
            && MetadataObjectOk(schema, last)
  {
    assert MetadataEntries(before + [last]) == MetadataEntries(before) + [Entry(last.key, last.key.objectKind)];
    EntriesLonger(MetadataEntries(before), Entry(last.key, last.key.objectKind));
    NoDuplicatesLonger(MetadataEntries(before), Entry(last.key, last.key.objectKind));
    assert forall o :: o in before + [last] <==> o in before || o == last;
  }

  method ValidateParents(objects: seq<MetadataObject>, known: map<string, ObjectKey>) returns (issues: seq<Issue>)
    requires Files(known)
    ensures issues == [] <==> forall o :: o in objects ==> ParentOk(known.Values, o)
  {
    issues := [];
    for i := 0 to |objects|
      invariant issues == [] <==> forall o :: o in objects[..i] ==> ParentOk(known.Values, o)
    {
      var failed := CheckParent(objects[i], known);
      issues := Noted(issues, failed, "metadata_parent_invalid", objects[i].key);
      PrefixLast(objects, i);
    }
    WholePrefix(objects);
  }

  /** A metadata object needs a known parent of its own scope and of a fitting kind. */
  method CheckParent(o: MetadataObject, known: map<string, ObjectKey>) returns (failed: bool)
    requires Files(known)
    ensures failed <==> !ParentOk(known.Values, o)
  {
    match o.parentKey {
      case Some(parent) =>
        Filed(known, parent);
        failed := Print(parent) !in known;
        failed := failed || o.key.sourceKind != parent.sourceKind || o.key.connectionAlias != parent.connectionAlias
                  || o.key.database != parent.database;
        var kinds := ParentKinds(o.key.objectKind);
        if kinds.Some? && Print(parent) in known {
          failed := failed || known[Print(parent)].objectKind !in kinds.value;
        }
      case None =>
        failed := true;
    }
  }

  method ValidateAnnotations(annotations: seq<ObjectAnnotation>, known: map<string, ObjectKey>)
    returns (issues: seq<Issue>)
    requires Files(known)
    ensures issues == [] <==> AnnotationsGood(known.Values, annotations)
  {
    issues := [];
    var annotated: set<string> := {};
    for i := 0 to |annotations|
      invariant Annotated(annotated, annotations[..i])
      invariant issues == [] <==> AnnotationsGood(known.Values, annotations[..i])
    {
      annotated, issues := ValidateAnnotation(annotations[..i], annotations[i], known, annotated, issues);
      PrefixLast(annotations, i);
    }
    WholePrefix(annotations);
  }

  /** The printed keys annotated so far. */
  ghost predicate Annotated(texts: set<string>, annotations: seq<ObjectAnnotation>) {
    forall k :: Print(k) in texts <==> k in AnnotatedKeys(annotations)
  }

  method ValidateAnnotation(ghost before: seq<ObjectAnnotation>, a: ObjectAnnotation, known: map<string, ObjectKey>,
                            annotated0: set<string>, issues0: seq<Issue>)
    returns (annotated: set<string>, issues: seq<Issue>)
    requires Files(known) && Annotated(annotated0, before)
    requires issues0 == [] <==> AnnotationsGood(known.Values, before)
    ensures Annotated(annotated, before + [a])
    ensures issues == [] <==> AnnotationsGood(known.Values, before + [a])
  {
    var failed := CheckAnnotation(a, known);
    issues := Noted(issues0, failed, "object_annotation_invalid", a.objectKey);
    issues := Noted(issues, Print(a.objectKey) in annotated0, "duplicate_object_annotation", a.objectKey);
    AnnotationsLonger(known.Values, before, a);
    forall k ensures Print(k) == Print(a.objectKey) <==> k == a.objectKey {
      if Print(k) == Print(a.objectKey) { PrintInjective(k, a.objectKey); }
    }
    annotated := annotated0 + {Print(a.objectKey)};
  }

  method CheckAnnotation(a: ObjectAnnotation, known: map<string, ObjectKey>) returns (failed: bool)
    requires Files(known)
    ensures failed <==> !AnnotationOk(known.Values, a)
  {
    Filed(known, a.objectKey);
    failed := Print(a.objectKey) !in known;
    failed := failed || (a.definition.None? && |a.properties| == 0);
    failed := failed || !Fits(a.definition, MAX_DEFINITION_BYTES);
    failed := failed || !PropertiesOk(a.properties);
  }

  predicate AnnotationsGood(known: set<ObjectKey>, annotations: seq<ObjectAnnotation>) {
    NoDuplicates(AnnotatedKeys(annotations)) && forall a :: a in annotations ==> AnnotationOk(known, a)
  }

  lemma AnnotationsLonger(known: set<ObjectKey>, before: seq<ObjectAnnotation>, last: ObjectAnnotation)
    ensures AnnotationsGood(known, before + [last])
       <==> AnnotationsGood(known, before) && last.objectKey !in AnnotatedKeys(before) && AnnotationOk(known, last)
    ensures AnnotatedKeys(before + [last]) == AnnotatedKeys(before) + [last.objectKey]
  {
    assert AnnotatedKeys(before + [last]) == AnnotatedKeys(before) + [last.objectKey];
    OneMore(AnnotatedKeys(before), last.objectKey);
    assert forall a :: a in before + [last] <==> a in before || a == last;
  }

  function PrintedIdentity(r: MetadataRelationship): (MetadataRelationshipKind, string, string, Option<nat>) {
    (r.kind, Print(r.fromKey), Print(r.toKey), r.ordinal)
  }

  method ValidateRelationships(relationships: seq<MetadataRelationship>, known: map<string, ObjectKey>)
    returns (issues: seq<Issue>)
    requires Files(known)
    ensures issues == [] <==> RelationshipsGood(known.Values, relationships)
  {
    issues := [];
    var identities: set<(MetadataRelationshipKind, string, string, Option<nat>)> := {};
    for i := 0 to |relationships|
      invariant identities == PrintedIdentities(relationships[..i])
      invariant issues == [] <==> RelationshipsGood(known.Values, relationships[..i])
    {
      issues := ValidateRelationship(relationships[..i], relationships[i], known, identities, issues);
      PrefixLast(relationships, i);
      identities := identities + {PrintedIdentity(relationships[i])};
    }
    WholePrefix(relationships);
  }

  method ValidateRelationship(ghost before: seq<MetadataRelationship>, r: MetadataRelationship,
                              known: map<string, ObjectKey>,
                              identities: set<(MetadataRelationshipKind, string, string, Option<nat>)>,
                              issues0: seq<Issue>)
    returns (issues: seq<Issue>)
    requires Files(known) && identities == PrintedIdentities(before)
    requires issues0 == [] <==> RelationshipsGood(known.Values, before)
    ensures issues == [] <==> RelationshipsGood(known.Values, before + [r])
    ensures PrintedIdentities(before + [r]) == identities + {PrintedIdentity(r)}
  {
    RelationshipsLonger(known.Values, before, r);
    var failed := CheckRelationship(r, known);
    issues := Noted(issues0, failed, "relationship_invalid", r.fromKey);
    issues := Noted(issues, PrintedIdentity(r) in identities, "duplicate_metadata_relationship", r.fromKey);
  }

  /** The checks on one relationship; endpoint kinds are only looked at when both ends are known. */
  method CheckRelationship(r: MetadataRelationship, known: map<string, ObjectKey>) returns (failed: bool)
    requires Files(known)
    ensures failed <==> !RelationshipOk(known.Values, r)
  {
    Filed(known, r.fromKey);
    Filed(known, r.toKey);
    var from, to := Print(r.fromKey), Print(r.toKey);
    failed := from !in known || to !in known;
    if from in known && to in known {
      failed := failed || !EndpointKindsOk(r.kind, known[from].objectKind, known[to].objectKind);
    }
    failed := failed || r.ordinal == Some(0);
    if r.kind.ExtensionRelation? { failed := failed || !PropertyNameOk(r.kind.name); }
    failed := failed || !PropertiesOk(r.properties);
  }

  predicate RelationshipsGood(known: set<ObjectKey>, relationships: seq<MetadataRelationship>) {
    NoDuplicates(Identities(relationships)) && forall r :: r in relationships ==> RelationshipOk(known, r)
  }

  function PrintedIdentities(relationships: seq<MetadataRelationship>): set<(MetadataRelationshipKind, string, string,
                                                                             Option<nat>)> {
    set r | r in relationships :: PrintedIdentity(r)
  }

  lemma RelationshipsLonger(known: set<ObjectKey>, before: seq<MetadataRelationship>, last: MetadataRelationship)
    ensures RelationshipsGood(known, before + [last])
       <==> RelationshipsGood(known, before) && RelationshipOk(known, last)
            && PrintedIdentity(last) !in PrintedIdentities(before)
    ensures PrintedIdentities(before + [last]) == PrintedIdentities(before) + {PrintedIdentity(last)}
  {
    var ids, id := Identities(before), (last.kind, last.fromKey, last.toKey, last.ordinal);
    assert Identities(before + [last]) == ids + [id];
    OneMore(ids, id);
    IdentityPrinted(before, last);
    assert forall r :: r in before + [last] <==> r in before || r == last;
  }

  lemma IdentityPrinted(before: seq<MetadataRelationship>, last: MetadataRelationship)
    ensures (last.kind, last.fromKey, last.toKey, last.ordinal) in Identities(before)
       <==> PrintedIdentity(last) in PrintedIdentities(before)
  {
    var ids, id := Identities(before), (last.kind, last.fromKey, last.toKey, last.ordinal);
    var printed := PrintedIdentity(last);
    if id in ids {
      var j :| 0 <= j < |ids| && ids[j] == id;
      assert before[j] in before;
    }
    if printed in PrintedIdentities(before) {
      var r :| r in before && PrintedIdentity(r) == printed;
      PrintInjective(r.fromKey, last.fromKey);
      PrintInjective(r.toKey, last.toKey);
      var j :| 0 <= j < |before| && before[j] == r;
      assert ids[j] == id;
    }
  }

  /** `base_object_keys`: files the typed objects; the first of equal keys stays. */
  method BaseObjectKeys(entries: seq<Entry>) returns (known: map<string, ObjectKey>)
    ensures Files(known) && known.Values == KnownKeys(entries)
  {
    known := map[];
    for i := 0 to |entries|
      invariant Files(known) && known.Values == KnownKeys(entries[..i])
    {
      var key := entries[i].key;
      Filed(known, key);
      if Print(key) !in known { known := FileKey(known, key); }
      EntriesLonger(entries[..i], entries[i]);
      PrefixLast(entries, i);
    }
    WholePrefix(entries);
  }

  method FileKey(known0: map<string, ObjectKey>, key: ObjectKey) returns (known: map<string, ObjectKey>)
    requires Files(known0)
    ensures Files(known) && known.Values == known0.Values + {key}
  {
    known := known0[Print(key) := key];
    FileMore(known0, known, key);
  }

  /** The canonical validator accepts exactly the well-formed canonical snapshots. */
  method ValidateCanonicalSchemaSnapshot(s: CanonicalSchemaSnapshot) returns (issues: seq<Issue>)
    ensures issues == [] <==> CanonicalWellFormed(s)
  {
    issues := ValidateSchemaSnapshot(s.schema);
    var base := BaseObjectKeys(Entries(s.schema));
    var known, objectIssues := ValidateMetadataObjects(s, base);
    var parentIssues := ValidateParents(s.metadata.objects, known);
    var annotationIssues := ValidateAnnotations(s.metadata.annotations, known);
    var relationshipIssues := ValidateRelationships(s.metadata.relationships, known);
    KnownTogether(s);
    issues := issues + objectIssues + parentIssues + annotationIssues + relationshipIssues;
  }

  lemma KnownTogether(s: CanonicalSchemaSnapshot)
    ensures KnownKeys(AllEntries(s)) == KnownKeys(Entries(s.schema)) + KnownKeys(MetadataEntries(s.metadata.objects))
    ensures NoDuplicates(KeysOf(AllEntries(s))) <==>
              && NoDuplicates(KeysOf(Entries(s.schema))) && NoDuplicates(KeysOf(MetadataEntries(s.metadata.objects)))
              && forall o :: o in s.metadata.objects ==> o.key !in KnownKeys(Entries(s.schema))
  {
    var base, more := Entries(s.schema), MetadataEntries(s.metadata.objects);
    assert KeysOf(AllEntries(s)) == KeysOf(base) + KeysOf(more);
    assert forall e :: e in AllEntries(s) <==> e in base || e in more;
    NoDuplicatesJoined(KeysOf(base), KeysOf(more));
    forall o | o in s.metadata.objects ensures o.key in KeysOf(more) {
      var i :| 0 <= i < |s.metadata.objects| && s.metadata.objects[i] == o;
      assert KeysOf(more)[i] == o.key;
    }
    forall k ensures k in KeysOf(base) <==> k in KnownKeys(base) { KeyListed(base, k); }
    forall k | k in KeysOf(more) ensures exists o :: o in s.metadata.objects && o.key == k {
      var i :| 0 <= i < |more| && KeysOf(more)[i] == k;
      assert s.metadata.objects[i] in s.metadata.objects;
    }
  }

  lemma KeyListed(entries: seq<Entry>, k: ObjectKey)
    ensures k in KeysOf(entries) <==> k in KnownKeys(entries)
  {
    if k in KeysOf(entries) {
      var i :| 0 <= i < |entries| && KeysOf(entries)[i] == k;
      assert entries[i] in entries;
    }
    if k in KnownKeys(entries) {
      var e :| e in entries && e.key == k;
      var i :| 0 <= i < |entries| && entries[i] == e;
      assert KeysOf(entries)[i] == k;
    }
  }

  lemma NoDuplicatesJoined<T>(a: seq<T>, b: seq<T>)
    ensures NoDuplicates(a + b) <==> NoDuplicates(a) && NoDuplicates(b) && forall x :: x in b ==> x !in a
  {
    var s := a + b;
    if NoDuplicates(s) {
      forall i, j | 0 <= i < j < |a| ensures a[i] != a[j] { assert s[i] != s[j]; }
      forall i, j | 0 <= i < j < |b| ensures b[i] != b[j] { assert s[|a| + i] != s[|a| + j]; }
      forall x | x in b ensures x !in a {
        var j :| 0 <= j < |b| && b[j] == x;
        forall i | 0 <= i < |a| ensures a[i] != x { assert s[i] != s[|a| + j]; }
      }
    }
    if NoDuplicates(a) && NoDuplicates(b) && forall x :: x in b ==> x !in a {
      forall i, j | 0 <= i < j < |s| ensures s[i] != s[j] {
        if i < |a| <= j { assert s[j] == b[j - |a|] && s[j] in b && s[i] in a; }
      }
    }
  }

  // ----------------------------------------------------- order does not matter

  /** The same canonical snapshot with its collections listed in any other order. */
  ghost predicate CanonicalReordered(a: CanonicalSchemaSnapshot, b: CanonicalSchemaSnapshot) {
    && Reordered(a.schema, b.schema)
    && multiset(a.metadata.objects) == multiset(b.metadata.objects)
    && multiset(a.metadata.annotations) == multiset(b.metadata.annotations)
    && multiset(a.metadata.relationships) == multiset(b.metadata.relationships)
  }

  lemma AllEntriesReordered(a: CanonicalSchemaSnapshot, b: CanonicalSchemaSnapshot)
    requires CanonicalReordered(a, b)
    ensures multiset(KeysOf(AllEntries(a))) == multiset(KeysOf(AllEntries(b)))
    ensures KnownKeys(AllEntries(a)) == KnownKeys(AllEntries(b))
  {
    EntriesPermuted(a.schema, b.schema);
    MapPermuted((o: MetadataObject) => Entry(o.key, o.key.objectKind), a.metadata.objects, b.metadata.objects,
                MetadataEntries(a.metadata.objects), MetadataEntries(b.metadata.objects));
    var x, y := AllEntries(a), AllEntries(b);
    SameElements(x, y);
    MapPermuted((e: Entry) => e.key, x, y, KeysOf(x), KeysOf(y));
  }

  lemma MetadataOkReordered(a: CanonicalSchemaSnapshot, b: CanonicalSchemaSnapshot, known: set<ObjectKey>)
    requires CanonicalReordered(a, b)
    ensures MetadataOk(a, known) <==> MetadataOk(b, known)
  {
    SameElements(a.metadata.objects, b.metadata.objects);
    SameElements(a.metadata.annotations, b.metadata.annotations);
    SameElements(a.metadata.relationships, b.metadata.relationships);
    MapPermuted((x: ObjectAnnotation) => x.objectKey, a.metadata.annotations, b.metadata.annotations,
                AnnotatedKeys(a.metadata.annotations), AnnotatedKeys(b.metadata.annotations));
    NoDuplicatesPermuted(AnnotatedKeys(a.metadata.annotations), AnnotatedKeys(b.metadata.annotations));
    MapPermuted((r: MetadataRelationship) => (r.kind, r.fromKey, r.toKey, r.ordinal), a.metadata.relationships,
                b.metadata.relationships,
                Identities(a.metadata.relationships), Identities(b.metadata.relationships));
    NoDuplicatesPermuted(Identities(a.metadata.relationships), Identities(b.metadata.relationships));
  }

  /** Acceptance does not depend on the order of any collection, metadata included. */
  lemma CanonicalWellFormedReordered(a: CanonicalSchemaSnapshot, b: CanonicalSchemaSnapshot)
    requires CanonicalReordered(a, b)
    ensures CanonicalWellFormed(a) <==> CanonicalWellFormed(b)
  {
    WellFormedReordered(a.schema, b.schema);
    AllEntriesReordered(a, b);
    NoDuplicatesPermuted(KeysOf(AllEntries(a)), KeysOf(AllEntries(b)));
    MetadataOkReordered(a, b, KnownKeys(AllEntries(a)));
  }

  /** A plain snapshot is the canonical one without metadata. */
  lemma PlainWellFormed(s: SchemaSnapshot)
    ensures CanonicalWellFormed(CanonicalSchemaSnapshot(s, NoMetadata)) <==> WellFormed(s)
    ensures AllEntries(CanonicalSchemaSnapshot(s, NoMetadata)) == Entries(s)
  {
    assert MetadataEntries([]) == [];
    assert Entries(s) + [] == Entries(s);
  }
}
