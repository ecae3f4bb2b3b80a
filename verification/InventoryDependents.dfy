/** Inbound foreign keys and dependents: the graph walk finds what the snapshot mentions
    (crates/database-memory-cli/src/metadata.rs). */
module InventoryDependents {
  import opened Wrappers
  import opened Lists
  import opened Ordering
  import opened ObjectKeys
  import opened SchemaModel
  import opened TextRules
  import opened SnapshotRules
  import opened CanonicalRules
  import opened Canonical
  import opened GraphModel
  import opened Projection
  import opened ProjectionClosure
  import opened EdgeTexts
  import opened GraphBuilder
  import opened AliasDiff
  import opened TableDescriptions
  import opened GraphDescription
  import opened Inventory
  import opened InventoryFacts
  import opened InventoryAgreement

  // ------------------------------------------------------ inbound foreign keys

  lemma {:induction false} ReadAllIs<T(!new)>(keys: seq<string>, read: string -> Option<T>, out: seq<T>)
    requires |keys| == |out| && forall i :: 0 <= i < |keys| ==> read(keys[i]) == Some(out[i])
    ensures ReadAll(keys, read) == Some(out)
  {
    if keys != [] {
      ReadAllIs(keys[1..], read, out[1..]);
      assert out == [out[0]] + out[1..];
    }
  }

  lemma ReferenceEdge(g: Graph, snapshotKey: string, s: CanonicalSchemaSnapshot, c: ColumnObject, r: EdgeRecord)
    returns (e: PlannedEdge)
    requires Indexed(g, snapshotKey, s) && r in InRows(g, Print(c.key)) && r.edgeType == "FK_TO_COLUMN"
    ensures e in EdgesInOrder(s) && e.kind == ToColumn && e.to == c.key && r == EdgeRowOf(snapshotKey, e)
  {
    hide Indexed, EdgesInOrder;
    e := PlannedOf(g, snapshotKey, s, r);
    KindOfType(e.kind, ToColumn);
    PrintInjective(e.to, c.key);
  }

  /** A reference edge into a column of a table comes from a foreign key that refers to the table. */
  lemma ReferenceRow(g: Graph, snapshotKey: string, s: CanonicalSchemaSnapshot, c: ColumnObject, r: EdgeRecord)
    returns (k: ConstraintObject)
    requires Indexed(g, snapshotKey, s) && c in s.schema.columns && r in InRows(g, Print(c.key))
             && r.edgeType == "FK_TO_COLUMN"
    ensures k in s.schema.constraints && ReferencedTable(k) == Some(Print(c.tableKey)) && r.edgeFrom == Print(k.key)
  {
    hide Indexed, EdgesInOrder;
    IndexedParts(g, snapshotKey, s);
    var e := ReferenceEdge(g, snapshotKey, s, c, r);
    k := ReferenceEdgeFrom(s, e);
    ReferencedColumnOf(s.schema, k, c);
  }

  lemma ReferenceRowStored(g: Graph, snapshotKey: string, s: CanonicalSchemaSnapshot, k: ConstraintObject)
    returns (c: ColumnObject, r: EdgeRecord)
    requires Indexed(g, snapshotKey, s) && k in s.schema.constraints && k.kind == ForeignKeyRule
    ensures c in s.schema.columns && ReferencedTable(k) == Some(Print(c.tableKey))
    ensures r in InRows(g, Print(c.key)) && r.edgeType == "FK_TO_COLUMN" && r.edgeFrom == Print(k.key)
  {
    hide Indexed, CanonicalWellFormed;
    IndexedParts(g, snapshotKey, s);
    c := SomeReferencedColumn(s.schema, k);
    var e := Plain(ToColumn, k.key, c.key);
    ReferenceEdgePlanned(s, k, c.key);
    StoredEdge(g, snapshotKey, s, e);
    r := EdgeRowOf(snapshotKey, e);
  }

  lemma InboundKey(g: Graph, snapshotKey: string, s: CanonicalSchemaSnapshot, table: string, columns: seq<ColumnObject>,
                   out: seq<ConstraintObject>, key: string)
    requires Indexed(g, snapshotKey, s) && (forall c ::
               c in columns <==> c in s.schema.columns && ColumnTable(c) == Some(table))
    requires forall k :: k in out <==> k in s.schema.constraints && ReferencedTable(k) == Some(table)
    requires key in InboundKeys(g, columns)
    ensures key in Labels(out, ConstraintKey)
  {
    hide Indexed;
    var c, e :| c in columns && e in InRows(g, Print(c.key)) && HasType(e, "FK_TO_COLUMN") && e.edgeFrom == key;
    var k := ReferenceRow(g, snapshotKey, s, c, e);
    InLabels(out, ConstraintKey, k);
  }

  lemma InboundFound(g: Graph, snapshotKey: string, s: CanonicalSchemaSnapshot, table: string,
                     columns: seq<ColumnObject>, k: ConstraintObject)
    requires Indexed(g, snapshotKey, s) && (forall c ::
               c in columns <==> c in s.schema.columns && ColumnTable(c) == Some(table))
    requires k in s.schema.constraints && ReferencedTable(k) == Some(table)
    ensures Print(k.key) in InboundKeys(g, columns) && ReadForeignKey(g, Print(k.key)) == Some(k)
  {
    hide Indexed;
    var c, r := ReferenceRowStored(g, snapshotKey, s, k);
    assert HasType(r, "FK_TO_COLUMN");
    ConstraintStored(g, snapshotKey, s, k);
  }

  lemma InboundSet(g: Graph, snapshotKey: string, s: CanonicalSchemaSnapshot, table: string, columns: seq<ColumnObject>,
                   out: seq<ConstraintObject>)
    requires Indexed(g, snapshotKey, s) && (forall c ::
               c in columns <==> c in s.schema.columns && ColumnTable(c) == Some(table))
    requires forall k :: k in out <==> k in s.schema.constraints && ReferencedTable(k) == Some(table)
    ensures forall key :: key in InboundKeys(g, columns) ==> key in Labels(out, ConstraintKey)
    ensures forall k :: k in out ==>
              Print(k.key) in InboundKeys(g, columns) && ReadForeignKey(g, Print(k.key)) == Some(k)
  {
    hide Indexed;
    forall key | key in InboundKeys(g, columns) ensures key in Labels(out, ConstraintKey) {
      InboundKey(g, snapshotKey, s, table, columns, out, key);
    }
    forall k | k in out ensures Print(k.key) in InboundKeys(g, columns) && ReadForeignKey(g, Print(k.key)) == Some(k) {
      InboundFound(g, snapshotKey, s, table, columns, k);
    }
  }

  lemma InboundInOrder(g: Graph, keys: set<string>, out: seq<ConstraintObject>)
    requires StrictlySorted(Labels(out, ConstraintKey), ByText)
    requires forall key :: key in keys ==> key in Labels(out, ConstraintKey)
    requires forall k :: k in out ==> Print(k.key) in keys && ReadForeignKey(g, Print(k.key)) == Some(k)
    ensures ReadAll(TextsInOrder(keys), ForeignKeyAt(g)) == Some(out)
  {
    LabelsAt(out, ConstraintKey);
    var labels := Labels(out, ConstraintKey);
    forall text ensures text in TextsInOrder(keys) <==> text in labels {
      if text in labels {
        var i :| 0 <= i < |labels| && labels[i] == text;
        assert out[i] in out;
      }
    }
    StrictlySortedUnique(TextsInOrder(keys), labels, ByText);
    ReadAllIs(labels, ForeignKeyAt(g), out);
  }

  /** The foreign keys found at a table's columns are those that refer to it, in the snapshot's order. */
  lemma InboundAre(g: Graph, snapshotKey: string, s: CanonicalSchemaSnapshot, table: string, columns: seq<ColumnObject>,
                   out: seq<ConstraintObject>)
    requires Indexed(g, snapshotKey, s) && (forall c ::
               c in columns <==> c in s.schema.columns && ColumnTable(c) == Some(table))
    requires out == Filter(s.schema.constraints, Belongs(ReferencedTable, table))
    ensures InboundForeignKeys(g, columns) == Some(out)
  {
    hide Indexed, CanonicalWellFormed, Normalize, GraphOf;
    IndexedParts(g, snapshotKey, s);
    CanonicalLists(s);
    FilterSorted(s.schema.constraints, Belongs(ReferencedTable, table), ConstraintOrder, out);
    LabelsSorted(out, ConstraintOrder, ConstraintKey);
    FilterHolds(s.schema.constraints, Belongs(ReferencedTable, table), out);
    InboundSet(g, snapshotKey, s, table, columns, out);
    InboundInOrder(g, InboundKeys(g, columns), out);
  }

  // --------------------------------------------------------------- mentions

  /** Why an object is a dependent of a table. */
  datatype Reason = ViewDepends(view: ViewObject, on: ObjectKey) | RoutineDepends(routine: RoutineObject,
          on: ObjectKey) | TriggerFires(trigger: TriggerObject)

  /** A dependency on the table itself, or on one of its columns. */
  ghost predicate About(s: SchemaSnapshot, d: ObjectKey, table: string, column: Option<string>) {
    || (d.objectKind == Table && Print(d) == table && column == None)
    || (d.objectKind == Column && column == Some(Print(d)) && ColumnIn(s, d, table))
  }

  ghost predicate ColumnIn(s: SchemaSnapshot, d: ObjectKey, table: string) {
    exists c :: c in s.columns && c.key == d && Print(c.tableKey) == table
  }

  ghost predicate Explains(s: SchemaSnapshot, table: string, reason: Reason, m: Mention) {
    match reason
    case ViewDepends(v, d) => v in s.views && d in v.dependsOn && m.dependent == ViewDependent(v)
        && About(s, d, table, m.column)
    case RoutineDepends(r, d) => r in s.routines && d in r.dependsOn && m.dependent == RoutineDependent(r)
        && About(s, d, table, m.column)
    case TriggerFires(t) =>
      t in s.triggers && t.tableKey.objectKind == Table && Print(t.tableKey) == table
          && m == Mention(TriggerDependent(t), None)
  }

  ghost predicate HasColumnText(columns: seq<ColumnObject>, text: string) {
    exists c :: c in columns && Print(c.key) == text
  }

  /** A map leads from the printed key of every column, and of nothing else, to that of its table. */
  ghost predicate TablesOf(columns: seq<ColumnObject>, m: map<string, string>) {
    && (forall c :: c in columns ==> Print(c.key) in m && m[Print(c.key)] == Print(c.tableKey))
    && (forall text :: text in m ==> HasColumnText(columns, text))
  }

  lemma {:induction false} ColumnTablesHold(columns: seq<ColumnObject>, m: map<string, string>)
    requires m == ColumnTables(columns) && NoDuplicates(MapSeq(ColumnKey, columns))
    ensures TablesOf(columns, m)
  {
    if columns != [] {
      hide TablesOf;
      var init, last := columns[..|columns| - 1], columns[|columns| - 1];
      assert columns == init + [last];
      MapSeqLast(ColumnKey, init, last);
      NoDuplicatesLast(MapSeq(ColumnKey, init), last.key);
      ColumnTablesHold(init, ColumnTables(init));
      ColumnTablesMore(init, last, ColumnTables(init), m);
    }
  }

  lemma ColumnTablesMore(init: seq<ColumnObject>, last: ColumnObject, before: map<string, string>,
                         after: map<string, string>)
    requires after == before[Print(last.key) := Print(last.tableKey)] && last.key !in MapSeq(ColumnKey, init)
    requires TablesOf(init, before)
    ensures TablesOf(init + [last], after)
  {
    forall c | c in init ensures Print(c.key) != Print(last.key) {
      InMapped(init, ColumnKey, c);
      PrintDiffers(c.key, last.key);
    }
    assert last in init + [last];
    forall text | text in after ensures HasColumnText(init + [last], text) {
      if text != Print(last.key) {
        assert HasColumnText(init, text);
        var c :| c in init && Print(c.key) == text;
        assert c in init + [last];
      }
    }
  }

  lemma ColumnTableOf(s: SchemaSnapshot, on: ObjectKey, table: string)
    requires NoDuplicates(MapSeq(ColumnKey, s.columns))
    ensures Print(on) in ColumnTables(s.columns) && ColumnTables(s.columns)[Print(on)] == table
            <==> ColumnIn(s, on, table)
  {
    var tables := ColumnTables(s.columns);
    ColumnTablesHold(s.columns, tables);
    if Print(on) in tables && tables[Print(on)] == table {
      assert HasColumnText(s.columns, Print(on));
      var c :| c in s.columns && Print(c.key) == Print(on);
      PrintInjective(c.key, on);
      assert ColumnIn(s, on, table);
    }
    if ColumnIn(s, on, table) {
      var c :| c in s.columns && c.key == on && Print(c.tableKey) == table;
      assert Print(on) in tables && tables[Print(on)] == table;
    }
  }

  lemma AboutMention(s: SchemaSnapshot, d: Dependent, on: ObjectKey, table: string, m: Mention)
    requires NoDuplicates(MapSeq(ColumnKey, s.columns))
    ensures m in MentionOf(d, on, ColumnTables(s.columns), table) <==> m.dependent == d && About(s, on, table, m.column)
  {
    ColumnTableOf(s, on, table);
  }

  lemma MentionExplained(s: SchemaSnapshot, table: string, m: Mention) returns (reason: Reason)
    requires NoDuplicates(MapSeq(ColumnKey, s.columns)) && m in SnapshotMentions(s, table)
    ensures Explains(s, table, reason, m)
  {
    var tables := ColumnTables(s.columns);
    if m in ViewsMentions(s.views, tables, table) {
      var v := FlatMapFrom(s.views, v => ViewMentions(v, tables, table), m);
      var d := FlatMapFrom(v.dependsOn, k => MentionOf(ViewDependent(v), k, tables, table), m);
      AboutMention(s, ViewDependent(v), d, table, m);
      reason := ViewDepends(v, d);
    } else if m in RoutinesMentions(s.routines, tables, table) {
      var r := FlatMapFrom(s.routines, r => RoutineMentions(r, tables, table), m);
      var d := FlatMapFrom(r.dependsOn, k => MentionOf(RoutineDependent(r), k, tables, table), m);
      AboutMention(s, RoutineDependent(r), d, table, m);
      reason := RoutineDepends(r, d);
    } else {
      var t := FlatMapFrom(s.triggers, t => TriggerMentionOf(t, table), m);
      reason := TriggerFires(t);
    }
  }

  lemma ExplainedMention(s: SchemaSnapshot, table: string, reason: Reason, m: Mention)
    requires NoDuplicates(MapSeq(ColumnKey, s.columns)) && Explains(s, table, reason, m)
    ensures m in SnapshotMentions(s, table)
  {
    var tables := ColumnTables(s.columns);
    match reason
    case ViewDepends(v, d) =>
      AboutMention(s, ViewDependent(v), d, table, m);
      FlatMapInto(v.dependsOn, k => MentionOf(ViewDependent(v), k, tables, table), d, m);
      FlatMapInto(s.views, x => ViewMentions(x, tables, table), v, m);
    case RoutineDepends(r, d) =>
      AboutMention(s, RoutineDependent(r), d, table, m);
      FlatMapInto(r.dependsOn, k => MentionOf(RoutineDependent(r), k, tables, table), d, m);
      FlatMapInto(s.routines, x => RoutineMentions(x, tables, table), r, m);
    case TriggerFires(t) =>
      FlatMapInto(s.triggers, x => TriggerMentionOf(x, table), t, m);
  }

  // ------------------------------------------------------- mentions on edges

  /** What the walk makes of a mention: it parses the key of the dependent again, takes the kind from
      what it reads, and gives up when it reads nothing or an object of another sort. */
  function Reread(m: Mention): Option<Mention> {
    match Parse(m.dependent.key)
    case None => None
    case Some(k) =>
      if k.objectKind !in {View, Trigger, Routine} then None
      else Some(Mention(m.dependent.(kind := KindText(k.objectKind)), m.column))
  }

  /** An edge read as a mention is one the snapshot makes. */
  lemma DependentRead(g: Graph, snapshotKey: string, s: CanonicalSchemaSnapshot, n: PlannedNode, edgeType: string,
                      column: Option<string>)
    requires Indexed(g, snapshotKey, s) && n in NodesInOrder(s)
    ensures ReadMention(g, Print(n.key), edgeType, column)
         == Reread(Mention(Dependent(Print(n.key), KindText(n.key.objectKind), n.name, RelationName(edgeType), []),
                           column))
  {
    hide Indexed;
    StoredNode(g, snapshotKey, s, n);
  }

  lemma KindsOfEntries(s: SchemaSnapshot)
    requires WellFormed(s)
    ensures (forall v :: v in s.views ==> v.key.objectKind == View)
            && (forall r :: r in s.routines ==> r.key.objectKind == Routine)
    ensures forall t :: t in s.triggers ==> t.key.objectKind == Trigger
  {
    forall i | 0 <= i < |s.views| ensures s.views[i].key.objectKind == View { EntryKind(s, ViewEntries(s.views)[i]); }
    forall i | 0 <= i < |s.routines| ensures s.routines[i].key.objectKind == Routine {
      EntryKind(s, RoutineEntries(s.routines)[i]);
    }
    forall i | 0 <= i < |s.triggers| ensures s.triggers[i].key.objectKind == Trigger {
      EntryKind(s, TriggerEntries(s.triggers)[i]);
    }
  }

  lemma EntryKind(s: SchemaSnapshot, e: Entry)
    requires WellFormed(s) && (e in ViewEntries(s.views) || e in RoutineEntries(s.routines)
                               || e in TriggerEntries(s.triggers))
    ensures e.key.objectKind == e.kind
  {
    assert e in Entries(s);
  }

  lemma ViewNodeFacts(s: CanonicalSchemaSnapshot, v: ViewObject)
    requires CanonicalWellFormed(s) && v in s.schema.views
    ensures ViewNode(v) in NodesInOrder(s) && v.key.objectKind == View
  {
    KindsOfEntries(s.schema);
    InMapped(s.schema.views, ViewNode, v);
    NodePieces(s, ViewNode(v));
  }

  lemma ViewDescribed(v: ViewObject, edgeType: string)
    requires v.key.objectKind == View && (edgeType == "VIEW_DEPENDS_ON_TABLE" || edgeType == "VIEW_DEPENDS_ON_COLUMN")
    ensures Dependent(Print(v.key), KindText(v.key.objectKind), v.name, RelationName(edgeType), []) == ViewDependent(v)
  {
  }

  lemma ViewRead(g: Graph, snapshotKey: string, s: CanonicalSchemaSnapshot, v: ViewObject, edgeType: string,
                 column: Option<string>)
    requires Indexed(g, snapshotKey, s) && v in s.schema.views
    requires edgeType == "VIEW_DEPENDS_ON_TABLE" || edgeType == "VIEW_DEPENDS_ON_COLUMN"
    ensures ReadMention(g, Print(v.key), edgeType, column) == Reread(Mention(ViewDependent(v), column))
  {
    ViewNodeFacts(s, v);
    DependentRead(g, snapshotKey, s, ViewNode(v), edgeType, column);
    ViewDescribed(v, edgeType);
  }

  lemma RoutineNodeFacts(s: CanonicalSchemaSnapshot, r: RoutineObject)
    requires CanonicalWellFormed(s) && r in s.schema.routines
    ensures RoutineNode(r) in NodesInOrder(s) && r.key.objectKind == Routine
  {
    KindsOfEntries(s.schema);
    InMapped(s.schema.routines, RoutineNode, r);
    NodePieces(s, RoutineNode(r));
  }

  lemma RoutineDescribed(r: RoutineObject, edgeType: string)
    requires r.key.objectKind == Routine && (edgeType == "ROUTINE_DEPENDS_ON_TABLE"
                                             || edgeType == "ROUTINE_DEPENDS_ON_COLUMN")
    ensures Dependent(Print(r.key), KindText(r.key.objectKind), r.name, RelationName(edgeType), [])
            == RoutineDependent(r)
  {
  }

  lemma RoutineRead(g: Graph, snapshotKey: string, s: CanonicalSchemaSnapshot, r: RoutineObject, edgeType: string,
                    column: Option<string>)
    requires Indexed(g, snapshotKey, s) && r in s.schema.routines
    requires edgeType == "ROUTINE_DEPENDS_ON_TABLE" || edgeType == "ROUTINE_DEPENDS_ON_COLUMN"
    ensures ReadMention(g, Print(r.key), edgeType, column) == Reread(Mention(RoutineDependent(r), column))
  {
    RoutineNodeFacts(s, r);
    DependentRead(g, snapshotKey, s, RoutineNode(r), edgeType, column);
    RoutineDescribed(r, edgeType);
  }

  lemma TriggerNodeFacts(s: CanonicalSchemaSnapshot, t: TriggerObject)
    requires CanonicalWellFormed(s) && t in s.schema.triggers
    ensures TriggerNode(t) in NodesInOrder(s) && t.key.objectKind == Trigger
  {
    KindsOfEntries(s.schema);
    InMapped(s.schema.triggers, TriggerNode, t);
    NodePieces(s, TriggerNode(t));
  }

  lemma TriggerDescribed(t: TriggerObject, edgeType: string)
    requires t.key.objectKind == Trigger && (edgeType == "TABLE_HAS_TRIGGER")
    ensures Dependent(Print(t.key), KindText(t.key.objectKind), t.name, RelationName(edgeType), [])
            == TriggerDependent(t)
  {
  }

  lemma TriggerRead(g: Graph, snapshotKey: string, s: CanonicalSchemaSnapshot, t: TriggerObject, edgeType: string,
                    column: Option<string>)
    requires Indexed(g, snapshotKey, s) && t in s.schema.triggers
    requires edgeType == "TABLE_HAS_TRIGGER"
    ensures ReadMention(g, Print(t.key), edgeType, column) == Reread(Mention(TriggerDependent(t), column))
  {
    TriggerNodeFacts(s, t);
    DependentRead(g, snapshotKey, s, TriggerNode(t), edgeType, column);
    TriggerDescribed(t, edgeType);
  }

  lemma ViewEdgeRead(g: Graph, snapshotKey: string, s: CanonicalSchemaSnapshot, e: PlannedEdge, table: string,
                     column: Option<string>)
    returns (reason: Reason, m: Mention)
    requires Indexed(g, snapshotKey, s) && e in EdgesInOrder(s) && (e.kind == ViewOnTable || e.kind == ViewOnColumn)
    requires About(s.schema, e.to, table, column)
    ensures ReadMention(g, Print(e.from), EdgeType(e.kind), column) == Reread(m) && Explains(s.schema, table, reason, m)
            && m.column == column
  {
    var v := ViewEdgeFrom(s, e);
    ViewEdgeTypes(e.kind);
    ViewRead(g, snapshotKey, s, v, EdgeType(e.kind), column);
    reason, m := ViewDepends(v, e.to), Mention(ViewDependent(v), column);
    ViewReason(s.schema, v, e.to, table, column);
  }

  lemma ViewEdgeTypes(kind: EdgeKind)
    requires kind == ViewOnTable || kind == ViewOnColumn
    ensures EdgeType(kind) == "VIEW_DEPENDS_ON_TABLE" || EdgeType(kind) == "VIEW_DEPENDS_ON_COLUMN"
  {
  }

  lemma ViewReason(s: SchemaSnapshot, v: ViewObject, d: ObjectKey, table: string, column: Option<string>)
    requires v in s.views && d in v.dependsOn && About(s, d, table, column)
    ensures Explains(s, table, ViewDepends(v, d), Mention(ViewDependent(v), column))
  {
  }

  lemma RoutineEdgeRead(g: Graph, snapshotKey: string, s: CanonicalSchemaSnapshot, e: PlannedEdge, table: string,
                        column: Option<string>)
    returns (reason: Reason, m: Mention)
    requires Indexed(g, snapshotKey, s) && e in EdgesInOrder(s)
             && (e.kind == RoutineOnTable || e.kind == RoutineOnColumn)
    requires About(s.schema, e.to, table, column)
    ensures ReadMention(g, Print(e.from), EdgeType(e.kind), column) == Reread(m) && Explains(s.schema, table, reason, m)
            && m.column == column
  {
    var r := RoutineEdgeFrom(s, e);
    RoutineEdgeTypes(e.kind);
    RoutineRead(g, snapshotKey, s, r, EdgeType(e.kind), column);
    reason, m := RoutineDepends(r, e.to), Mention(RoutineDependent(r), column);
    RoutineReason(s.schema, r, e.to, table, column);
  }

  lemma RoutineEdgeTypes(kind: EdgeKind)
    requires kind == RoutineOnTable || kind == RoutineOnColumn
    ensures EdgeType(kind) == "ROUTINE_DEPENDS_ON_TABLE" || EdgeType(kind) == "ROUTINE_DEPENDS_ON_COLUMN"
  {
  }

  lemma RoutineReason(s: SchemaSnapshot, r: RoutineObject, d: ObjectKey, table: string, column: Option<string>)
    requires r in s.routines && d in r.dependsOn && About(s, d, table, column)
    ensures Explains(s, table, RoutineDepends(r, d), Mention(RoutineDependent(r), column))
  {
  }

  /** A row that names a dependent comes from a dependency of a view or routine. */
  lemma DependencyRow(g: Graph, snapshotKey: string, s: CanonicalSchemaSnapshot, r: EdgeRecord) returns (e: PlannedEdge)
    requires Indexed(g, snapshotKey, s) && r in g.edges.Values && (DependsOnTable(r) || DependsOnColumn(r))
    ensures e in EdgesInOrder(s) && r == EdgeRowOf(snapshotKey, e)
    ensures DependsOnTable(r) ==> e.kind == ViewOnTable || e.kind == RoutineOnTable
    ensures DependsOnColumn(r) ==> e.kind == ViewOnColumn || e.kind == RoutineOnColumn
  {
    hide Indexed;
    e := PlannedOf(g, snapshotKey, s, r);
    DependencyKinds(e.kind);
  }

  lemma DependencyNames()
    ensures EdgeType(ViewOnTable) == "VIEW_DEPENDS_ON_TABLE" && EdgeType(RoutineOnTable) == "ROUTINE_DEPENDS_ON_TABLE"
    ensures EdgeType(ViewOnColumn) == "VIEW_DEPENDS_ON_COLUMN"
            && EdgeType(RoutineOnColumn) == "ROUTINE_DEPENDS_ON_COLUMN"
  {
  }

  lemma DependencyKinds(kind: EdgeKind)
    ensures EdgeType(kind) == "VIEW_DEPENDS_ON_TABLE" ==> kind == ViewOnTable
    ensures EdgeType(kind) == "ROUTINE_DEPENDS_ON_TABLE" ==> kind == RoutineOnTable
    ensures EdgeType(kind) == "VIEW_DEPENDS_ON_COLUMN" ==> kind == ViewOnColumn
    ensures EdgeType(kind) == "ROUTINE_DEPENDS_ON_COLUMN" ==> kind == RoutineOnColumn
  {
    hide EdgeType;
    DependencyNames();
    if EdgeType(kind) == EdgeType(ViewOnTable) { KindOfType(kind, ViewOnTable); }
    if EdgeType(kind) == EdgeType(RoutineOnTable) { KindOfType(kind, RoutineOnTable); }
    if EdgeType(kind) == EdgeType(ViewOnColumn) { KindOfType(kind, ViewOnColumn); }
    if EdgeType(kind) == EdgeType(RoutineOnColumn) { KindOfType(kind, RoutineOnColumn); }
  }

  /** The target of a dependency edge is of the kind the edge says. */
  lemma DependencyTarget(s: CanonicalSchemaSnapshot, e: PlannedEdge)
    requires CanonicalWellFormed(s) && e in EdgesInOrder(s)
    ensures e.kind == ViewOnTable || e.kind == RoutineOnTable ==> e.to.objectKind == Table
    ensures e.kind == ViewOnColumn || e.kind == RoutineOnColumn ==> e.to.objectKind == Column
  {
    hide CanonicalWellFormed;
    if e.kind == ViewOnTable || e.kind == ViewOnColumn { var v := ViewEdgeFrom(s, e); }
    if e.kind == RoutineOnTable || e.kind == RoutineOnColumn { var r := RoutineEdgeFrom(s, e); }
  }

  /** An edge into a table that names a dependent. */
  lemma TableRow(g: Graph, snapshotKey: string, s: CanonicalSchemaSnapshot, table: string, r: EdgeRecord)
    returns (reason: Reason, m: Mention)
    requires Indexed(g, snapshotKey, s) && r in InRows(g, table) && DependsOnTable(r)
    ensures MentionAtSource(g, None)(r) == Reread(m) && Explains(s.schema, table, reason, m)
  {
    var e := DependencyRow(g, snapshotKey, s, r);
    DependencyTarget(s, e);
    if e.kind == ViewOnTable {
      reason, m := ViewEdgeRead(g, snapshotKey, s, e, table, None);
    } else {
      reason, m := RoutineEdgeRead(g, snapshotKey, s, e, table, None);
    }
  }

  /** An edge into a column of the table that names a dependent. */
  lemma ColumnRowMention(g: Graph, snapshotKey: string, s: CanonicalSchemaSnapshot, c: ColumnObject, r: EdgeRecord)
    returns (reason: Reason, m: Mention)
    requires Indexed(g, snapshotKey, s) && c in s.schema.columns && r in InRows(g, Print(c.key)) && DependsOnColumn(r)
    ensures MentionAtSource(g, Some(Print(c.key)))(r) == Reread(m) && Explains(s.schema, Print(c.tableKey), reason, m)
  {
    var e := DependencyRow(g, snapshotKey, s, r);
    DependencyTarget(s, e);
    PrintInjective(e.to, c.key);
    assert ColumnIn(s.schema, e.to, Print(c.tableKey));
    if e.kind == ViewOnColumn {
      reason, m := ViewEdgeRead(g, snapshotKey, s, e, Print(c.tableKey), Some(Print(c.key)));
    } else {
      reason, m := RoutineEdgeRead(g, snapshotKey, s, e, Print(c.tableKey), Some(Print(c.key)));
    }
  }

  lemma TriggerReason(s: SchemaSnapshot, table: string, t: TriggerObject) returns (reason: Reason, m: Mention)
    requires t in s.triggers && t.tableKey.objectKind == Table && Print(t.tableKey) == table
    ensures Explains(s, table, reason, m) && m == Mention(TriggerDependent(t), None)
  {
    reason, m := TriggerFires(t), Mention(TriggerDependent(t), None);
  }

  /** An edge from a table to a trigger. */
  lemma TriggerRow(g: Graph, snapshotKey: string, s: CanonicalSchemaSnapshot, table: string, r: EdgeRecord)
    returns (reason: Reason, m: Mention)
    requires Indexed(g, snapshotKey, s) && r in OutRows(g, table) && r.edgeType == "TABLE_HAS_TRIGGER"
    ensures TriggerAtTarget(g)(r) == Reread(m) && Explains(s.schema, table, reason, m)
  {
    hide Indexed, CanonicalWellFormed, EdgesInOrder, Explains, ReadMention;
    IndexedParts(g, snapshotKey, s);
    var e := PlannedOf(g, snapshotKey, s, r);
    KindOfType(e.kind, TableHasTrigger);
    var t := TriggerEdgeFrom(s, e);
    TriggerRead(g, snapshotKey, s, t, r.edgeType, None);
    reason, m := TriggerReason(s.schema, table, t);
  }
}
