/** Exactly when the connection alias of a snapshot is invisible to the diff (schema_diff.rs). */
module AliasExactness {
  import opened Wrappers
  import opened Lists
  import opened Ordering
  import opened ObjectKeys
  import opened SchemaModel
  import opened TextRules
  import opened SnapshotRules
  import opened CanonicalRules
  import opened GraphModel
  import opened EdgeFetch
  import opened Projection
  import opened EdgeTexts
  import opened GraphBuilder
  import opened SchemaDiff
  import opened BoundedDiff
  import opened AliasRename
  import opened AliasDiff
  import opened AliasValidity

  /** No object has a key with an empty component. */
  ghost predicate NoEmptyParts(s: CanonicalSchemaSnapshot) {
    forall k :: k in KnownKeys(AllEntries(s)) ==> [] !in Parts(k)
  }

  // ---------------------------------------------------- what may be empty at all

  lemma ScopedParts(k: ObjectKey, alias: string, database: ObjectKey)
    requires InScope(k, alias, database) && !Blank(alias)
    ensures [] in Parts(k) <==> k.subObject == Some([])
  {
    ShapeOf(k.objectKind);
    assert k.subObject.Some? ==> k.subObject.value in Parts(k);
  }

  lemma MetadataParts(k: ObjectKey, alias: string, database: ObjectKey)
    requires k.sourceKind == database.sourceKind && k.connectionAlias == alias && k.database == database.database
    requires database.sourceKind != [] && alias != [] && database.database != []
    ensures [] in Parts(k) <==> k.schema == [] || k.objectName == [] || k.subObject == Some([])
  {
    ShapeOf(k.objectKind);
    var parts := [k.sourceKind, k.connectionAlias, k.database, k.schema, KindText(k.objectKind), k.objectName];
    assert parts[3] in Parts(k) && parts[5] in Parts(k);
    assert k.subObject.Some? ==> k.subObject.value in Parts(k);
  }

  /** In an accepted snapshot a typed object can only lack a sub-object's text, such as the signature of
      a routine without arguments; a metadata object may also lack a schema or a name. */
  lemma EmptyPartsAre(s: CanonicalSchemaSnapshot)
    requires CanonicalWellFormed(s)
    ensures NoEmptyParts(s) <==>
              && (forall e :: e in Entries(s.schema) ==> e.key.subObject != Some([]))
              && (forall o :: o in s.metadata.objects ==>
                    o.key.subObject != Some([]) && o.key.schema != [] && o.key.objectName != [])
  {
    hide NoDuplicates, ObjectsOk, Blank, PropertiesOk, Parts, KeysOf, Ordinals;
    var alias, database := s.schema.connectionAlias, s.schema.database.key;
    HeaderScope(s);
    forall e | e in Entries(s.schema) ensures [] in Parts(e.key) <==> e.key.subObject == Some([]) {
      ScopedParts(e.key, alias, database);
    }
    forall o | o in s.metadata.objects
      ensures [] in Parts(o.key) <==> o.key.schema == [] || o.key.objectName == [] || o.key.subObject == Some([])
    {
      MetadataParts(o.key, alias, database);
    }
    KnownSplit(s);
  }

  lemma HeaderScope(s: CanonicalSchemaSnapshot)
    requires CanonicalWellFormed(s)
    ensures !Blank(s.schema.connectionAlias) && s.schema.connectionAlias != []
    ensures s.schema.database.key.sourceKind != [] && s.schema.database.key.database != []
    ensures forall e :: e in Entries(s.schema) ==> InScope(e.key, s.schema.connectionAlias, s.schema.database.key)
  {
    hide NoDuplicates, ObjectsOk, MetadataOk, KeysOf, Ordinals;
    var first := Entry(s.schema.database.key, Database);
    assert first in Entries(s.schema);
  }

  lemma KnownSplit(s: CanonicalSchemaSnapshot)
    ensures forall k :: k in KnownKeys(AllEntries(s))
                    <==> (exists e :: e in Entries(s.schema) && e.key == k)
                         || (exists o :: o in s.metadata.objects && o.key == k)
  {
    hide Entries;
    var entries := MetadataEntries(s.metadata.objects);
    forall o | o in s.metadata.objects ensures Entry(o.key, o.key.objectKind) in AllEntries(s) {
      var i :| 0 <= i < |s.metadata.objects| && s.metadata.objects[i] == o;
      assert entries[i] in AllEntries(s);
    }
    forall e | e in entries ensures exists o :: o in s.metadata.objects && o.key == e.key {
      var i :| 0 <= i < |entries| && entries[i] == e;
      assert s.metadata.objects[i] in s.metadata.objects;
    }
  }

  // ------------------------------------------------------------- own sources

  lemma OneSource(s: CanonicalSchemaSnapshot)
    requires CanonicalWellFormed(s)
    ensures forall k :: k in KnownKeys(AllEntries(s)) ==> k.sourceKind == s.schema.database.key.sourceKind
  {
    hide Entries, NoDuplicates, ObjectsOk, PropertiesOk, KeysOf, Ordinals, Blank;
    HeaderScope(s);
    KnownSplit(s);
    forall o | o in s.metadata.objects ensures o.key.sourceKind == s.schema.database.key.sourceKind {
      assert MetadataObjectOk(s.schema, o);
    }
  }

  lemma RenamedSource(s: CanonicalSchemaSnapshot, alias: string)
    ensures Renamed(s, alias).schema.database.key.sourceKind == s.schema.database.key.sourceKind
  {
  }

  lemma ReadableWhen(s: CanonicalSchemaSnapshot)
    requires CanonicalWellFormed(s) && s.schema.database.key.sourceKind != "v2"
    ensures ReadableUnder(s) <==> NoEmptyParts(s)
  {
    hide CanonicalWellFormed, Parts;
    OneSource(s);
  }

  lemma RenamedEmptyParts(s: CanonicalSchemaSnapshot, alias: string)
    requires CanonicalWellFormed(s) && alias != []
    ensures NoEmptyParts(s) ==> NoEmptyParts(Renamed(s, alias))
  {
    hide AllEntries, KnownKeys, Renamed;
    OneAlias(s);
    EntriesUnder(s);
    AllEntriesRenamed(s, alias);
    RenamedEntries(AllEntries(s), AllEntries(Renamed(s, alias)), s.schema.connectionAlias, alias);
    forall k | k in KnownKeys(AllEntries(s)) && [] !in Parts(k) ensures [] !in Parts(RenameKey(k, alias)) {
      RenamedParts(k, alias);
    }
  }

  lemma RenamedParts(k: ObjectKey, alias: string)
    ensures forall part :: part in Parts(RenameKey(k, alias)) ==> part == alias || part in Parts(k)
  {
  }

  // ------------------------------------------------------------ what is stored

  lemma ComparableStored(k: string, s: CanonicalSchemaSnapshot, g: Graph, n: PlannedNode)
    requires CanonicalWellFormed(s) && g == GraphOf(k, s) && n in NodePlan(s)
    ensures ComparableObjectKey(Print(n.key)) in NodesByComparable(g)
  {
    hide CanonicalWellFormed, NodePlan, ComparableObjectKey, StoredNodes;
    StoredAre(k, s, g);
    UpsertedHolds(StoredNodes(g), ComparableNode, NodesByComparable(g));
    var i :| 0 <= i < |NodePlan(s)| && NodePlan(s)[i] == n;
    var row := NodeRows(k, s)[i];
    assert row in StoredNodes(g) && ComparableNode(row) == ComparableObjectKey(Print(n.key));
  }

  lemma ComparableFrom(k: string, s: CanonicalSchemaSnapshot, g: Graph, text: string) returns (n: PlannedNode)
    requires CanonicalWellFormed(s) && g == GraphOf(k, s) && text in NodesByComparable(g)
    ensures n in NodePlan(s) && ComparableObjectKey(Print(n.key)) == text
  {
    hide CanonicalWellFormed, NodePlan, ComparableObjectKey, StoredNodes;
    StoredAre(k, s, g);
    UpsertedHolds(StoredNodes(g), ComparableNode, NodesByComparable(g));
    var row := NodesByComparable(g)[text];
    assert row in StoredNodes(g) && row in NodeRows(k, s);
    var i :| 0 <= i < |NodeRows(k, s)| && NodeRows(k, s)[i] == row;
    n := NodePlan(s)[i];
  }

  lemma StoredAre(k: string, s: CanonicalSchemaSnapshot, g: Graph)
    requires CanonicalWellFormed(s) && g == GraphOf(k, s)
    ensures forall r :: r in StoredNodes(g) <==> r in NodeRows(k, s)
  {
    hide CanonicalWellFormed, NodePlan, StoredNodes;
    NodeRowKeys(k, s);
    StoredNodesAre(g, NodeRows(k, s));
  }

  /** A key with an empty component is reported as removed under another alias. */
  lemma EmptyPartShows(k1: string, k2: string, s: CanonicalSchemaSnapshot, alias: string, g: Graph, h: Graph,
                       key: ObjectKey)
    requires CanonicalWellFormed(s) && CanonicalWellFormed(Renamed(s, alias))
    requires s.schema.database.key.sourceKind != "v2" && alias != s.schema.connectionAlias
    requires g == GraphOf(k1, s) && h == GraphOf(k2, Renamed(s, alias))
    requires key in KnownKeys(AllEntries(s)) && [] in Parts(key)
    ensures Print(key) in NodesByComparable(g) && Print(key) !in NodesByComparable(h)
  {
    hide CanonicalWellFormed, Renamed, GraphOf, NodePlan, NodesByComparable, ComparableObjectKey, Print, AllEntries,
        Parts;
    var t := Renamed(s, alias);
    SourcesOwn(s);
    RenamedSource(s, alias);
    SourcesOwn(t);
    var n := PlannedFor(s, key);
    ComparableStored(k1, s, g, n);
    ComparableForm(key);
    if Print(key) in NodesByComparable(h) {
      var m := ComparableFrom(k2, t, h, Print(key));
      KeyOfPlanned(t, m);
      AliasApart(s, alias, key, m.key);
      ComparableKeysEqual(key, m.key);
      assert false;
    }
  }

  lemma SourcesOwn(s: CanonicalSchemaSnapshot)
    requires CanonicalWellFormed(s) && s.schema.database.key.sourceKind != "v2"
    ensures forall k :: k in KnownKeys(AllEntries(s)) ==> OwnSource(k)
  {
    hide CanonicalWellFormed, AllEntries;
    OneSource(s);
  }

  lemma PlannedFor(s: CanonicalSchemaSnapshot, key: ObjectKey) returns (n: PlannedNode)
    requires CanonicalWellFormed(s) && key in KnownKeys(AllEntries(s))
    ensures n in NodePlan(s) && n.key == key
  {
    hide CanonicalWellFormed, NodePlan, AllEntries;
    NodeKeysDistinct(s);
    var i :| 0 <= i < |NodePlan(s)| && MapSeq(KeyOfNode, NodePlan(s))[i] == key;
    n := NodePlan(s)[i];
  }

  lemma KeyOfPlanned(s: CanonicalSchemaSnapshot, n: PlannedNode)
    requires CanonicalWellFormed(s) && n in NodePlan(s)
    ensures n.key in KnownKeys(AllEntries(s))
  {
    hide CanonicalWellFormed, NodePlan, AllEntries;
    NodeKeysDistinct(s);
    KeysOfPlan(NodePlan(s));
  }

  lemma AliasApart(s: CanonicalSchemaSnapshot, alias: string, a: ObjectKey, b: ObjectKey)
    requires CanonicalWellFormed(s) && CanonicalWellFormed(Renamed(s, alias)) && alias != s.schema.connectionAlias
    requires a in KnownKeys(AllEntries(s)) && b in KnownKeys(AllEntries(Renamed(s, alias)))
    ensures a != b
  {
    hide CanonicalWellFormed, AllEntries;
    OneAlias(s);
    OneAlias(Renamed(s, alias));
  }

  // ---------------------------------------------------------------- the results

  /** For a source kind other than `v2`, two stored snapshots that differ only in their connection alias
      compare as equal if and only if no object has a key with an empty component. */
  lemma AliasInvisibleWhen(k1: string, k2: string, s: CanonicalSchemaSnapshot, alias: string)
    requires CanonicalWellFormed(s) && CanonicalWellFormed(Renamed(s, alias))
    requires s.schema.database.key.sourceKind != "v2" && alias != s.schema.connectionAlias
    requires NoDuplicates(Texts(EdgePlan(s))) && NoDuplicates(Texts(EdgePlan(Renamed(s, alias))))
    ensures Keyed(GraphOf(k1, s)) && Keyed(GraphOf(k2, Renamed(s, alias)))
    ensures Compare(GraphOf(k1, s), GraphOf(k2, Renamed(s, alias))) == NoDifference <==> NoEmptyParts(s)
  {
    hide CanonicalWellFormed, Renamed, GraphOf, Compare, Texts, EdgePlan, KnownKeys, AllEntries, Parts;
    var t := Renamed(s, alias);
    RowsAreKeyed(k1, s);
    RowsAreKeyed(k2, t);
    if NoEmptyParts(s) {
      NonEmptyAlias(t, alias, s);
      RenamedEmptyParts(s, alias);
      RenamedSource(s, alias);
      ReadableWhen(s);
      ReadableWhen(t);
      AliasIsInvisible(k1, k2, s, alias);
    } else {
      var key :| key in KnownKeys(AllEntries(s)) && [] in Parts(key);
      EmptyPartShows(k1, k2, s, alias, GraphOf(k1, s), GraphOf(k2, t), key);
      NoDifferenceWhen(GraphOf(k1, s), GraphOf(k2, t));
    }
  }

  lemma NonEmptyAlias(t: CanonicalSchemaSnapshot, alias: string, s: CanonicalSchemaSnapshot)
    requires t == Renamed(s, alias) && CanonicalWellFormed(t)
    ensures alias != []
  {
    hide Entries, MetadataOk, ObjectsOk, NoDuplicates;
  }

  /** The same of the diff that is built: under the same condition it lists nothing, counts nothing,
      has no impacts and is not truncated, and otherwise it counts a difference. */
  lemma AliasDiffWhen(stored: map<string, Graph>, k1: string, k2: string, s: CanonicalSchemaSnapshot, alias: string,
                      depth: nat, limit: Budget, d: Diff)
    requires CanonicalWellFormed(s) && CanonicalWellFormed(Renamed(s, alias))
    requires s.schema.database.key.sourceKind != "v2" && alias != s.schema.connectionAlias
    requires NoDuplicates(Texts(EdgePlan(s))) && NoDuplicates(Texts(EdgePlan(Renamed(s, alias))))
    requires k1 in stored && stored[k1] == GraphOf(k1, s)
    requires k2 in stored && stored[k2] == GraphOf(k2, Renamed(s, alias))
    requires IsDiff(stored, k1, k2, depth, limit, d)
    ensures NoEmptyParts(s) ==> d == Diff(k1, k2, NoDifference, [], Counts(0, 0, 0, 0, 0, 0), limit, false)
    ensures !NoEmptyParts(s) ==> d.counts != Counts(0, 0, 0, 0, 0, 0)
  {
    hide CanonicalWellFormed, Renamed, GraphOf, Compare, Texts, EdgePlan, NoEmptyParts, IsDiff;
    AliasInvisibleWhen(k1, k2, s, alias);
    CountsDecide(stored, k1, k2, depth, limit, d);
    if NoEmptyParts(s) { NoDifferenceNoImpact(stored, k1, k2, depth, limit, d); }
  }

  /** A diff counts nothing exactly when the full comparison lists nothing. */
  lemma CountsDecide(stored: map<string, Graph>, k1: string, k2: string, depth: nat, limit: Budget, d: Diff)
    requires IsDiff(stored, k1, k2, depth, limit, d)
    ensures d.counts == Counts(0, 0, 0, 0, 0, 0) <==> FullOf(stored, k1, k2) == NoDifference
  {
    hide FullOf, ImpactsOf;
    if FullOf(stored, k1, k2) == NoDifference { assert Seeds(k1, k2, NoDifference) == {}; }
  }

  // ------------------------------------------------------------ plain aliases

  lemma PlainKey(k: ObjectKey, alias: string)
    requires '>' !in Print(k) && '>' !in alias
    ensures '>' !in Print(RenameKey(k, alias))
  {
    hide Print, Parts;
    PrintKeeps(k, '>');
    PrintKeeps(RenameKey(k, alias), '>');
    RenamedParts(k, alias);
  }

  /** An alias without the separator keeps names plain. */
  lemma PlainRenamed(s: CanonicalSchemaSnapshot, alias: string)
    requires CanonicalWellFormed(s) && PlainNames(s) && '>' !in alias
    ensures PlainNames(Renamed(s, alias))
  {
    hide CanonicalWellFormed, AllEntries, KnownKeys, Print;
    OneAlias(s);
    EntriesUnder(s);
    AllEntriesRenamed(s, alias);
    RenamedEntries(AllEntries(s), AllEntries(Renamed(s, alias)), s.schema.connectionAlias, alias);
    forall k | k in KnownKeys(AllEntries(s)) ensures '>' !in Print(RenameKey(k, alias)) { PlainKey(k, alias); }
    var t := Renamed(s, alias);
    forall i | 0 <= i < |t.metadata.relationships|
      ensures t.metadata.relationships[i].kind == s.metadata.relationships[i].kind {}
    forall r | r in t.metadata.relationships && r.kind.ExtensionRelation?
      ensures '>' !in r.kind.name && ':' !in r.kind.name {
      var i :| 0 <= i < |t.metadata.relationships| && t.metadata.relationships[i] == r;
      assert s.metadata.relationships[i] in s.metadata.relationships;
    }
  }

  /** With plain names everything the theorem asks can be seen before the snapshot is taken again: an
      alias that is new, not blank and without the separator, and merges no referenced columns. */
  lemma PlainAliasInvisible(k1: string, k2: string, s: CanonicalSchemaSnapshot, alias: string)
    requires CanonicalWellFormed(s) && PlainNames(s) && s.schema.database.key.sourceKind != "v2"
    requires !Blank(alias) && '>' !in alias && alias != s.schema.connectionAlias && ChecksApart(s.schema, alias)
    ensures Keyed(GraphOf(k1, s)) && Keyed(GraphOf(k2, Renamed(s, alias)))
    ensures Compare(GraphOf(k1, s), GraphOf(k2, Renamed(s, alias))) == NoDifference <==> NoEmptyParts(s)
  {
    hide CanonicalWellFormed, PlainNames, Renamed, ChecksApart, Compare, GraphOf, Texts, EdgePlan, NoEmptyParts, Blank;
    RenamedWellFormed(s, alias);
    PlainRenamed(s, alias);
    PlainTextsDistinct(s);
    PlainTextsDistinct(Renamed(s, alias));
    AliasInvisibleWhen(k1, k2, s, alias);
  }
}
