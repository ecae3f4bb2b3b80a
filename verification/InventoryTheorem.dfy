/** Every table of a certified snapshot is described alike by the index and by the stored graph
    (crates/database-memory-cli/src/metadata.rs). */
module InventoryTheorem {
  import opened Wrappers
  import opened Lists
  import opened Ordering
  import opened ObjectKeys
  import opened SchemaModel
  import opened SnapshotRules
  import opened CanonicalRules
  import opened Canonical
  import opened GraphModel
  import opened Projection
  import opened ProjectionClosure
  import opened EdgeTexts
  import opened GraphBuilder
  import opened AliasDiff
  import opened SchemaDiff
  import opened TableDescriptions
  import opened GraphDescription
  import opened Inventory
  import opened InventoryFacts
  import opened InventoryAgreement
  import opened InventoryDependents

  // ------------------------------------------------------------- collecting

  ghost predicate Mentioned(edges: seq<EdgeRecord>, wanted: EdgeRecord -> bool, read: EdgeRecord -> Option<Mention>,
                            m: Mention) {
    exists r :: r in edges && wanted(r) && read(r) == Some(m)
  }

  lemma {:induction false} CollectMentions(edges: seq<EdgeRecord>, wanted: EdgeRecord -> bool,
                                           read: EdgeRecord -> Option<Mention>)
    requires forall r :: r in edges && wanted(r) ==> read(r).Some?
    ensures CollectEdges(edges, wanted, read).Some?
    ensures forall m :: m in CollectEdges(edges, wanted, read).value <==> Mentioned(edges, wanted, read, m)
  {
    if edges != [] {
      var init, last := edges[..|edges| - 1], edges[|edges| - 1];
      assert edges == init + [last];
      CollectMentions(init, wanted, read);
      CollectLast(init, last, wanted, read);
      var value := CollectEdges(edges, wanted, read).value;
      forall m ensures m in value <==> Mentioned(edges, wanted, read, m) {
        MentionedMore(init, last, wanted, read, m);
      }
    }
  }

  lemma MentionedMore(init: seq<EdgeRecord>, last: EdgeRecord, wanted: EdgeRecord -> bool,
                      read: EdgeRecord -> Option<Mention>, m: Mention)
    ensures Mentioned(init + [last], wanted, read, m)
            <==> Mentioned(init, wanted, read, m) || (wanted(last) && read(last) == Some(m))
  {
    assert last in init + [last];
    if r :| r in init && wanted(r) && read(r) == Some(m) { assert r in init + [last]; }
  }

  // ------------------------------------------------ what the snapshot explains

  ghost predicate Explained(s: SchemaSnapshot, table: string, m: Mention) {
    exists reason :: Explains(s, table, reason, m)
  }

  /** What the walk may read: some mention of the snapshot, read again. */
  ghost predicate HasReason(s: SchemaSnapshot, table: string, x: Mention) {
    exists m :: Explained(s, table, m) && Reread(m) == Some(x)
  }

  /** The walk can read every mention of a table, if not always as what it is. */
  ghost predicate Rereadable(s: SchemaSnapshot, table: string) {
    forall m :: Explained(s, table, m) ==> Reread(m).Some?
  }

  /** The mentions of the snapshot are those with a reason. */
  lemma MentionsAreExplained(s: SchemaSnapshot, table: string)
    requires WellFormed(s)
    ensures forall m :: m in SnapshotMentions(s, table) <==> Explained(s, table, m)
  {
    hide SnapshotMentions, Explains;
    assert NoDuplicates(MapSeq(ColumnKey, s.columns)) by { CollectionsDistinct(s); }
    forall m ensures m in SnapshotMentions(s, table) <==> Explained(s, table, m) {
      if m in SnapshotMentions(s, table) {
        var reason := MentionExplained(s, table, m);
      }
      if Explained(s, table, m) {
        var reason :| Explains(s, table, reason, m);
        ExplainedMention(s, table, reason, m);
      }
    }
  }

  lemma ExplainedNow(s: SchemaSnapshot, table: string, reason: Reason, m: Mention, read: Option<Mention>)
    requires Explains(s, table, reason, m) && Rereadable(s, table) && read == Reread(m)
    ensures read.Some? && HasReason(s, table, read.value)
  {
    hide Explains, Reread;
    assert Explained(s, table, m);
  }

  lemma DependencyTypes(d: ObjectKey)
    requires d.objectKind in {Table, Column}
    ensures EdgeType(DependencyKind(true, d)) == (if d.objectKind == Table then "VIEW_DEPENDS_ON_TABLE"
                                                  else "VIEW_DEPENDS_ON_COLUMN")
    ensures EdgeType(DependencyKind(false, d)) == (if d.objectKind == Table then "ROUTINE_DEPENDS_ON_TABLE"
                                                   else "ROUTINE_DEPENDS_ON_COLUMN")
  {
  }

  lemma ViewReasonStored(g: Graph, snapshotKey: string, s: CanonicalSchemaSnapshot, v: ViewObject, d: ObjectKey,
                         column: Option<string>) returns (r: EdgeRecord)
    requires Indexed(g, snapshotKey, s) && v in s.schema.views && d in v.dependsOn && d.objectKind in {Table, Column}
    ensures r in InRows(g, Print(d)) && (if d.objectKind == Table then DependsOnTable(r) else DependsOnColumn(r))
    ensures MentionAtSource(g, column)(r) == Reread(Mention(ViewDependent(v), column))
  {
    hide Indexed, Reread;
    DependencyTypes(d);
    ViewEdgePlanned(s, v, d);
    r := RowStored(g, snapshotKey, s, Plain(DependencyKind(true, d), v.key, d));
    ViewRead(g, snapshotKey, s, v, r.edgeType, column);
  }

  lemma RoutineReasonStored(g: Graph, snapshotKey: string, s: CanonicalSchemaSnapshot, x: RoutineObject, d: ObjectKey,
                            column: Option<string>) returns (r: EdgeRecord)
    requires Indexed(g, snapshotKey, s) && x in s.schema.routines && d in x.dependsOn && d.objectKind in {Table, Column}
    ensures r in InRows(g, Print(d)) && (if d.objectKind == Table then DependsOnTable(r) else DependsOnColumn(r))
    ensures MentionAtSource(g, column)(r) == Reread(Mention(RoutineDependent(x), column))
  {
    hide Indexed, Reread;
    DependencyTypes(d);
    RoutineEdgePlanned(s, x, d);
    r := RowStored(g, snapshotKey, s, Plain(DependencyKind(false, d), x.key, d));
    RoutineRead(g, snapshotKey, s, x, r.edgeType, column);
  }

  lemma TriggerReasonStored(g: Graph, snapshotKey: string, s: CanonicalSchemaSnapshot, t: TriggerObject)
    returns (r: EdgeRecord)
    requires Indexed(g, snapshotKey, s) && t in s.schema.triggers && t.tableKey.objectKind == Table
    ensures r in OutRows(g, Print(t.tableKey)) && r.edgeType == "TABLE_HAS_TRIGGER"
    ensures TriggerAtTarget(g)(r) == Reread(Mention(TriggerDependent(t), None))
  {
    hide Indexed, CanonicalWellFormed, Reread;
    IndexedParts(g, snapshotKey, s);
    TriggerEdgePlanned(s, t);
    r := RowStored(g, snapshotKey, s, Plain(TableHasTrigger, t.tableKey, t.key));
    TriggerRead(g, snapshotKey, s, t, r.edgeType, None);
  }

  // -------------------------------------------------- where the walk meets them

  /** Some wanted edge is read so. */
  ghost predicate ReadThere(edges: seq<EdgeRecord>, wanted: EdgeRecord -> bool, read: EdgeRecord -> Option<Mention>,
                            outcome: Option<Mention>) {
    exists r :: r in edges && wanted(r) && read(r) == outcome
  }

  /** The walk comes by an edge that is read so: into the table, into one of its columns, or to a trigger. */
  ghost predicate CameBy(g: Graph, table: string, columns: seq<ColumnObject>, outcome: Option<Mention>) {
    || ReadThere(EdgesTo(g, table), DependsOnTable, MentionAtSource(g, None), outcome)
    || CameByColumn(g, columns, outcome)
    || ReadThere(EdgesFrom(g, table), OfEdgeTypeNamed("TABLE_HAS_TRIGGER"), TriggerAtTarget(g), outcome)
  }

  ghost predicate CameByColumn(g: Graph, columns: seq<ColumnObject>, outcome: Option<Mention>) {
    exists c :: c in columns && ReadThere(EdgesTo(g, Print(c.key)), DependsOnColumn,
                                          MentionAtSource(g, Some(Print(c.key))), outcome)
  }

  lemma RowReadThere(g: Graph, node: string, wanted: EdgeRecord -> bool, read: EdgeRecord -> Option<Mention>,
                     r: EdgeRecord)
    requires r in InRows(g, node) && wanted(r)
    ensures ReadThere(EdgesTo(g, node), wanted, read, read(r))
  {
    assert r in EdgesTo(g, node);
  }

  lemma DependencyCameBy(g: Graph, table: string, s: SchemaSnapshot, columns: seq<ColumnObject>, d: ObjectKey,
                         r: EdgeRecord, column: Option<string>)
    requires forall c :: c in s.columns && ColumnTable(c) == Some(table) ==> c in columns
    requires About(s, d, table, column) && r in InRows(g, Print(d))
    requires if d.objectKind == Table then DependsOnTable(r) else DependsOnColumn(r)
    ensures CameBy(g, table, columns, MentionAtSource(g, column)(r))
  {
    hide ReadThere;
    if d.objectKind == Table {
      RowReadThere(g, table, DependsOnTable, MentionAtSource(g, None), r);
    } else {
      var c :| c in s.columns && c.key == d && Print(c.tableKey) == table;
      RowReadThere(g, Print(c.key), DependsOnColumn, MentionAtSource(g, Some(Print(c.key))), r);
      assert c in columns;
      assert CameByColumn(g, columns, MentionAtSource(g, column)(r));
    }
  }

  /** Every mention of the snapshot is met, and read as it can be. */
  lemma ExplainedIsMet(g: Graph, snapshotKey: string, s: CanonicalSchemaSnapshot, table: string,
                       columns: seq<ColumnObject>, reason: Reason, m: Mention)
    requires Indexed(g, snapshotKey, s) && Explains(s.schema, table, reason, m)
    requires forall c :: c in s.schema.columns && ColumnTable(c) == Some(table) ==> c in columns
    ensures CameBy(g, table, columns, Reread(m))
  {
    hide Indexed, Reread;
    match reason
    case ViewDepends(v, d) =>
      var r := ViewReasonStored(g, snapshotKey, s, v, d, m.column);
      DependencyCameBy(g, table, s.schema, columns, d, r, m.column);
    case RoutineDepends(x, d) =>
      var r := RoutineReasonStored(g, snapshotKey, s, x, d, m.column);
      DependencyCameBy(g, table, s.schema, columns, d, r, m.column);
    case TriggerFires(t) =>
      var r := TriggerReasonStored(g, snapshotKey, s, t);
      assert r in EdgesFrom(g, table) && OfEdgeTypeNamed("TABLE_HAS_TRIGGER")(r);
  }

  // -------------------------------------------------------------- it gives up

  lemma {:induction false} CollectGivesUp(edges: seq<EdgeRecord>, wanted: EdgeRecord -> bool,
                                          read: EdgeRecord -> Option<Mention>)
    requires ReadThere(edges, wanted, read, None)
    ensures CollectEdges(edges, wanted, read).None?
    decreases |edges|
  {
    var init, last := edges[..|edges| - 1], edges[|edges| - 1];
    assert edges == init + [last];
    CollectLast(init, last, wanted, read);
    if !(wanted(last) && read(last).None?) {
      var r :| r in edges && wanted(r) && read(r) == None;
      assert r in init;
      CollectGivesUp(init, wanted, read);
    }
  }

  lemma {:induction false} ColumnsGiveUp(g: Graph, columns: seq<ColumnObject>)
    requires CameByColumn(g, columns, None)
    ensures AllColumnMentions(g, columns).None?
    decreases |columns|
  {
    hide ReadThere;
    var init, last := columns[..|columns| - 1], columns[|columns| - 1];
    assert columns == init + [last];
    ColumnMentionsLast(g, init, last);
    var c :| c in columns && ReadThere(EdgesTo(g, Print(c.key)), DependsOnColumn,
                                       MentionAtSource(g, Some(Print(c.key))), None);
    if c in init {
      assert CameByColumn(g, init, None);
      ColumnsGiveUp(g, init);
    } else {
      CollectGivesUp(EdgesTo(g, Print(c.key)), DependsOnColumn, MentionAtSource(g, Some(Print(c.key))));
    }
  }

  /** One dependent that cannot be read makes the whole walk give up. */
  lemma WalkGivesUp(g: Graph, snapshotKey: string, s: CanonicalSchemaSnapshot, table: string,
                    columns: seq<ColumnObject>)
    requires Indexed(g, snapshotKey, s) && !Rereadable(s.schema, table)
    requires forall c :: c in s.schema.columns && ColumnTable(c) == Some(table) ==> c in columns
    ensures AllMentions(g, table, columns).None?
  {
    hide Indexed, ReadThere, CameByColumn, Explains, Reread;
    var m :| Explained(s.schema, table, m) && Reread(m).None?;
    var reason :| Explains(s.schema, table, reason, m);
    ExplainedIsMet(g, snapshotKey, s, table, columns, reason, m);
    if ReadThere(EdgesTo(g, table), DependsOnTable, MentionAtSource(g, None), None) {
      CollectGivesUp(EdgesTo(g, table), DependsOnTable, MentionAtSource(g, None));
    } else if CameByColumn(g, columns, None) {
      ColumnsGiveUp(g, columns);
    } else {
      CollectGivesUp(EdgesFrom(g, table), OfEdgeTypeNamed("TABLE_HAS_TRIGGER"), TriggerAtTarget(g));
    }
  }

  // ------------------------------------------------------------ all mentions

  /** Where the walk meets a mention it reads. */
  ghost predicate Met(g: Graph, table: string, columns: seq<ColumnObject>, m: Mention) {
    || Mentioned(EdgesTo(g, table), DependsOnTable, MentionAtSource(g, None), m)
    || MetAtColumn(g, columns, m)
    || Mentioned(EdgesFrom(g, table), OfEdgeTypeNamed("TABLE_HAS_TRIGGER"), TriggerAtTarget(g), m)
  }

  ghost predicate MetAtColumn(g: Graph, columns: seq<ColumnObject>, m: Mention) {
    exists c :: c in columns && Mentioned(EdgesTo(g, Print(c.key)), DependsOnColumn,
                                          MentionAtSource(g, Some(Print(c.key))), m)
  }

  lemma CameByIsMet(g: Graph, table: string, columns: seq<ColumnObject>, x: Mention)
    ensures CameBy(g, table, columns, Some(x)) ==> Met(g, table, columns, x)
  {
    hide EdgesTo, EdgesFrom, DependsOnTable, DependsOnColumn, MentionAtSource, TriggerAtTarget;
    if CameByColumn(g, columns, Some(x)) {
      var c :| c in columns && ReadThere(EdgesTo(g, Print(c.key)), DependsOnColumn,
                                         MentionAtSource(g, Some(Print(c.key))), Some(x));
      assert Mentioned(EdgesTo(g, Print(c.key)), DependsOnColumn, MentionAtSource(g, Some(Print(c.key))), x);
    }
  }

  /** A list holds what the edges into the table mention, each for a reason. */
  ghost predicate ReadAtTable(g: Graph, s: SchemaSnapshot, table: string, mentions: seq<Mention>) {
    && (forall m :: m in mentions <==> Mentioned(EdgesTo(g, table), DependsOnTable, MentionAtSource(g, None), m))
    && (forall m :: m in mentions ==> HasReason(s, table, m))
  }

  ghost predicate ReadAtColumns(g: Graph, s: SchemaSnapshot, table: string, columns: seq<ColumnObject>,
                                mentions: seq<Mention>) {
    (forall m :: m in mentions <==> MetAtColumn(g, columns, m)) && forall m :: m in mentions ==> HasReason(s, table, m)
  }

  ghost predicate ReadAtTriggers(g: Graph, s: SchemaSnapshot, table: string, mentions: seq<Mention>) {
    && (forall m ::
         m in mentions <==> Mentioned(EdgesFrom(g, table), OfEdgeTypeNamed("TABLE_HAS_TRIGGER"), TriggerAtTarget(g), m))
    && (forall m :: m in mentions ==> HasReason(s, table, m))
  }

  lemma TableRowsRead(g: Graph, snapshotKey: string, s: CanonicalSchemaSnapshot, table: string, edges: seq<EdgeRecord>,
                      read: EdgeRecord -> Option<Mention>)
    requires Indexed(g, snapshotKey, s) && edges == EdgesTo(g, table) && read == MentionAtSource(g, None)
    requires Rereadable(s.schema, table)
    ensures forall r :: r in edges && DependsOnTable(r) ==> read(r).Some? && HasReason(s.schema, table, read(r).value)
  {
    hide Indexed, DependsOnTable, MentionAtSource, Explains, HasReason, Rereadable, Reread;
    forall r | r in edges && DependsOnTable(r) ensures read(r).Some? && HasReason(s.schema, table, read(r).value) {
      var reason, m := TableRow(g, snapshotKey, s, table, r);
      ExplainedNow(s.schema, table, reason, m, read(r));
    }
  }

  lemma TableMentionsAre(g: Graph, snapshotKey: string, s: CanonicalSchemaSnapshot, table: string)
    requires Indexed(g, snapshotKey, s)
    requires Rereadable(s.schema, table)
    ensures TableMentions(g, table).Some? && ReadAtTable(g, s.schema, table, TableMentions(g, table).value)
  {
    hide Indexed, DependsOnTable, MentionAtSource, HasReason, EdgesTo, Rereadable;
    var edges, read := EdgesTo(g, table), MentionAtSource(g, None);
    TableRowsRead(g, snapshotKey, s, table, edges, read);
    CollectMentions(edges, DependsOnTable, read);
  }

  /** What is read at one column of the table. */
  ghost predicate ReadAtColumn(g: Graph, s: SchemaSnapshot, table: string, c: ColumnObject) {
    var column := Print(c.key);
    && ColumnMentions(g, column).Some?
    && (forall m ::
         m in ColumnMentions(g, column).value
         <==> Mentioned(EdgesTo(g, column), DependsOnColumn, MentionAtSource(g, Some(column)), m))
    && (forall m :: m in ColumnMentions(g, column).value ==> HasReason(s, table, m))
  }

  lemma ColumnRowsRead(g: Graph, snapshotKey: string, s: CanonicalSchemaSnapshot, c: ColumnObject,
                       edges: seq<EdgeRecord>, read: EdgeRecord -> Option<Mention>)
    requires Indexed(g, snapshotKey, s) && c in s.schema.columns && edges == EdgesTo(g, Print(c.key))
    requires read == MentionAtSource(g, Some(Print(c.key)))
    requires Rereadable(s.schema, Print(c.tableKey))
    ensures forall r :: r in edges && DependsOnColumn(r) ==>
            read(r).Some? && HasReason(s.schema, Print(c.tableKey), read(r).value)
  {
    hide Indexed, DependsOnColumn, MentionAtSource, Explains, HasReason, Rereadable, Reread;
    forall r | r in edges && DependsOnColumn(r) ensures read(r).Some?
        && HasReason(s.schema, Print(c.tableKey), read(r).value) {
      var reason, m := ColumnRowMention(g, snapshotKey, s, c, r);
      ExplainedNow(s.schema, Print(c.tableKey), reason, m, read(r));
    }
  }

  lemma ColumnMentionsAre(g: Graph, snapshotKey: string, s: CanonicalSchemaSnapshot, c: ColumnObject)
    requires Indexed(g, snapshotKey, s) && c in s.schema.columns
    requires Rereadable(s.schema, Print(c.tableKey))
    ensures ReadAtColumn(g, s.schema, Print(c.tableKey), c)
  {
    hide Indexed, DependsOnColumn, MentionAtSource, HasReason, EdgesTo, Rereadable;
    var edges, read := EdgesTo(g, Print(c.key)), MentionAtSource(g, Some(Print(c.key)));
    ColumnRowsRead(g, snapshotKey, s, c, edges, read);
    CollectMentions(edges, DependsOnColumn, read);
  }

  lemma TriggerRowsRead(g: Graph, snapshotKey: string, s: CanonicalSchemaSnapshot, table: string,
                        edges: seq<EdgeRecord>,
                        read: EdgeRecord -> Option<Mention>)
    requires Indexed(g, snapshotKey, s) && edges == EdgesFrom(g, table) && read == TriggerAtTarget(g)
    requires Rereadable(s.schema, table)
    ensures forall r :: r in edges && r.edgeType == "TABLE_HAS_TRIGGER" ==>
            read(r).Some? && HasReason(s.schema, table, read(r).value)
  {
    hide Indexed, TriggerAtTarget, Explains, HasReason, Rereadable, Reread;
    forall r | r in edges && r.edgeType == "TABLE_HAS_TRIGGER"
      ensures read(r).Some? && HasReason(s.schema, table, read(r).value) {
      var reason, m := TriggerRow(g, snapshotKey, s, table, r);
      ExplainedNow(s.schema, table, reason, m, read(r));
    }
  }

  lemma TriggerMentionsAre(g: Graph, snapshotKey: string, s: CanonicalSchemaSnapshot, table: string)
    requires Indexed(g, snapshotKey, s)
    requires Rereadable(s.schema, table)
    ensures TriggerMentions(g, table).Some? && ReadAtTriggers(g, s.schema, table, TriggerMentions(g, table).value)
  {
    hide Indexed, TriggerAtTarget, HasReason, EdgesFrom, Rereadable;
    var edges, read := EdgesFrom(g, table), TriggerAtTarget(g);
    TriggerRowsRead(g, snapshotKey, s, table, edges, read);
    CollectMentions(edges, OfEdgeTypeNamed("TABLE_HAS_TRIGGER"), read);
  }

  lemma AllColumnMentionsAre(g: Graph, snapshotKey: string, s: CanonicalSchemaSnapshot, table: string,
                             columns: seq<ColumnObject>)
    requires Indexed(g, snapshotKey, s) && forall c :: c in columns ==>
             c in s.schema.columns && ColumnTable(c) == Some(table)
    requires Rereadable(s.schema, table)
    ensures AllColumnMentions(g, columns).Some?
            && ReadAtColumns(g, s.schema, table, columns, AllColumnMentions(g, columns).value)
  {
    hide Indexed, Rereadable;
    forall c | c in columns ensures ReadAtColumn(g, s.schema, table, c) { ColumnMentionsAre(g, snapshotKey, s, c); }
    ColumnsRead(g, s.schema, table, columns);
  }

  lemma {:induction false} ColumnsRead(g: Graph, s: SchemaSnapshot, table: string, columns: seq<ColumnObject>)
    requires forall c :: c in columns ==> ReadAtColumn(g, s, table, c)
    ensures AllColumnMentions(g, columns).Some?
    ensures forall m :: m in AllColumnMentions(g, columns).value <==> MetAtColumn(g, columns, m)
    ensures forall m :: m in AllColumnMentions(g, columns).value ==> HasReason(s, table, m)
    decreases |columns|
  {
    if columns != [] {
      var init, last := columns[..|columns| - 1], columns[|columns| - 1];
      assert columns == init + [last];
      ColumnsRead(g, s, table, init);
      ColumnMentionsLast(g, init, last);
      assert ReadAtColumn(g, s, table, last);
      MetAtColumnMore(g, init, last);
    }
  }

  lemma MetAtColumnMore(g: Graph, init: seq<ColumnObject>, last: ColumnObject)
    ensures forall m :: MetAtColumn(g, init + [last], m)
                    <==> MetAtColumn(g, init, m) || Mentioned(EdgesTo(g, Print(last.key)), DependsOnColumn,
                                                              MentionAtSource(g, Some(Print(last.key))), m)
  {
    assert last in init + [last] && forall c :: c in init ==> c in init + [last];
  }

  lemma JoinedAreMet(g: Graph, s: SchemaSnapshot, table: string, columns: seq<ColumnObject>, own: seq<Mention>,
                     atColumns: seq<Mention>,
                     fired: seq<Mention>, all: seq<Mention>)
    requires all == own + atColumns + fired
    requires ReadAtTable(g, s, table, own) && ReadAtColumns(g, s, table, columns, atColumns)
             && ReadAtTriggers(g, s, table, fired)
    ensures forall m :: m in all <==> Met(g, table, columns, m)
    ensures forall m :: m in all ==> HasReason(s, table, m)
  {
    hide Mentioned, MetAtColumn, HasReason;
  }

  lemma PartsAreMet(g: Graph, snapshotKey: string, s: CanonicalSchemaSnapshot, table: string,
                    columns: seq<ColumnObject>)
    requires Indexed(g, snapshotKey, s) && forall c ::
               c in columns <==> c in s.schema.columns && ColumnTable(c) == Some(table)
    requires Rereadable(s.schema, table)
    ensures AllMentions(g, table, columns).Some?
    ensures forall m :: m in AllMentions(g, table, columns).value <==> Met(g, table, columns, m)
    ensures forall m :: m in AllMentions(g, table, columns).value ==> HasReason(s.schema, table, m)
  {
    hide Indexed, HasReason, Rereadable, Met, TableMentions, AllColumnMentions, TriggerMentions;
    TableMentionsAre(g, snapshotKey, s, table);
    AllColumnMentionsAre(g, snapshotKey, s, table, columns);
    TriggerMentionsAre(g, snapshotKey, s, table);
    JoinedAreMet(g, s.schema, table, columns, TableMentions(g, table).value, AllColumnMentions(g, columns).value,
                 TriggerMentions(g, table).value, AllMentions(g, table, columns).value);
  }

  /** A mention read again from a list. */
  ghost predicate RereadFrom(mentions: seq<Mention>, x: Mention) { exists m :: m in mentions && Reread(m) == Some(x) }

  /** Where every dependent can be read, the walk mentions exactly what the snapshot mentions, read again. */
  lemma MentionsAgree(g: Graph, snapshotKey: string, s: CanonicalSchemaSnapshot, table: string,
                      columns: seq<ColumnObject>)
    requires Indexed(g, snapshotKey, s) && Rereadable(s.schema, table)
    requires forall c :: c in columns <==> c in s.schema.columns && ColumnTable(c) == Some(table)
    ensures AllMentions(g, table, columns).Some?
    ensures forall x :: x in AllMentions(g, table, columns).value <==> RereadFrom(SnapshotMentions(s.schema, table), x)
  {
    hide Indexed, SnapshotMentions, HasReason, Met, AllMentions, Rereadable;
    PartsAreMet(g, snapshotKey, s, table, columns);
    MetIsExplained(g, snapshotKey, s, table, columns, AllMentions(g, table, columns).value,
                   SnapshotMentions(s.schema, table));
  }

  lemma MetIsExplained(g: Graph, snapshotKey: string, s: CanonicalSchemaSnapshot, table: string,
                       columns: seq<ColumnObject>, all: seq<Mention>, mentions: seq<Mention>)
    requires Indexed(g, snapshotKey, s) && mentions == SnapshotMentions(s.schema, table)
    requires forall c :: c in columns <==> c in s.schema.columns && ColumnTable(c) == Some(table)
    requires forall x :: x in all <==> Met(g, table, columns, x)
    requires forall x :: x in all ==> HasReason(s.schema, table, x)
    ensures forall x :: x in all <==> RereadFrom(mentions, x)
  {
    hide Indexed, CanonicalWellFormed, SnapshotMentions, Explains, Reread, Met, CameBy;
    IndexedParts(g, snapshotKey, s);
    SchemaPart(s);
    MentionsAreExplained(s.schema, table);
    forall x | x in all ensures RereadFrom(mentions, x) {
      var m :| Explained(s.schema, table, m) && Reread(m) == Some(x);
    }
    forall x | RereadFrom(mentions, x) ensures x in all {
      var m :| m in mentions && Reread(m) == Some(x);
      var reason :| Explains(s.schema, table, reason, m);
      ExplainedIsMet(g, snapshotKey, s, table, columns, reason, m);
      CameByIsMet(g, table, columns, x);
    }
  }

  lemma SchemaPart(s: CanonicalSchemaSnapshot)
    requires CanonicalWellFormed(s)
    ensures WellFormed(s.schema)
  {
  }

  // --------------------------------------------------------------- coherence

  function ReasonKey(reason: Reason): ObjectKey {
    match reason case ViewDepends(v, _) => v.key case RoutineDepends(r, _) => r.key case TriggerFires(t) => t.key
  }

  lemma ReasonOfMention(s: SchemaSnapshot, table: string, reason: Reason, m: Mention)
    requires WellFormed(s) && Explains(s, table, reason, m)
    ensures m.dependent.key == Print(ReasonKey(reason)) && m.dependent.columnKeys == []
    ensures ReasonKey(reason).objectKind == (match reason case ViewDepends(_, _) => View
    case RoutineDepends(_, _) => Routine case TriggerFires(_) => Trigger)
  {
    KindsOfEntries(s);
  }

  lemma SameKeySameItem<T>(items: seq<T>, key: T -> ObjectKey, x: T, y: T)
    requires NoDuplicates(MapSeq(key, items)) && x in items && y in items && key(x) == key(y)
    ensures x == y
  {
    var i :| 0 <= i < |items| && items[i] == x;
    var j :| 0 <= j < |items| && items[j] == y;
    assert MapSeq(key, items)[i] == MapSeq(key, items)[j];
  }

  /** Reasons about the same object describe it alike. */
  lemma ReasonsAgree(s: SchemaSnapshot, table: string, a: Reason, b: Reason, m: Mention, n: Mention)
    requires WellFormed(s) && Explains(s, table, a, m) && Explains(s, table, b, n) && m.dependent.key == n.dependent.key
    ensures m.dependent == n.dependent
  {
    ReasonOfMention(s, table, a, m);
    ReasonOfMention(s, table, b, n);
    PrintInjective(ReasonKey(a), ReasonKey(b));
    CollectionsDistinct(s);
    match (a, b)
    case (ViewDepends(v, _), ViewDepends(w, _)) => SameKeySameItem(s.views, ViewKey, v, w);
    case (RoutineDepends(r, _), RoutineDepends(x, _)) => SameKeySameItem(s.routines, RoutineKey, r, x);
    case (TriggerFires(t), TriggerFires(u)) => SameKeySameItem(s.triggers, TriggerKey, t, u);
    case _ =>
  }

  lemma MentionsAreCoherent(s: SchemaSnapshot, table: string)
    requires WellFormed(s)
    ensures Coherent(SnapshotMentions(s, table))
  {
    hide Explains, SnapshotMentions, WellFormed;
    MentionsAreExplained(s, table);
    var all := SnapshotMentions(s, table);
    forall m | m in all ensures m.dependent.columnKeys == [] {
      var reason :| Explains(s, table, reason, m);
      ReasonOfMention(s, table, reason, m);
    }
    forall m, n | m in all && n in all && m.dependent.key == n.dependent.key ensures m.dependent == n.dependent {
      var a :| Explains(s, table, a, m);
      var b :| Explains(s, table, b, n);
      ReasonsAgree(s, table, a, b, m, n);
    }
  }

  // ---------------------------------------------------- how the lists differ

  /** The list of dependents of a description. */
  function Listed(mentions: seq<Mention>): seq<Dependent> {
    Lookup(MergeAll(mentions), SortedKeys(MergeAll(mentions)))
  }

  lemma RereadKeepsKey(m: Mention)
    requires Reread(m).Some?
    ensures var x := Reread(m).value;
            x.column == m.column && x.dependent == m.dependent.(kind := x.dependent.kind)
  {
  }

  lemma RereadAlike(m: Mention, n: Mention)
    requires m.dependent == n.dependent && Reread(m).Some? && Reread(n).Some?
    ensures Reread(m).value.dependent == Reread(n).value.dependent
  {
  }

  lemma RereadCoherent(mentions: seq<Mention>, all: seq<Mention>)
    requires Coherent(mentions) && forall x :: x in all <==> RereadFrom(mentions, x)
    ensures Coherent(all)
  {
    hide Reread;
    forall x | x in all ensures x.dependent.columnKeys == [] {
      var m :| m in mentions && Reread(m) == Some(x);
      RereadKeepsKey(m);
    }
    forall x, y | x in all && y in all && x.dependent.key == y.dependent.key ensures x.dependent == y.dependent {
      var m :| m in mentions && Reread(m) == Some(x);
      var n :| n in mentions && Reread(n) == Some(y);
      RereadKeepsKey(m);
      RereadKeepsKey(n);
      RereadAlike(m, n);
    }
  }

  /** The entry listed for an object is of the kind its mentions give it. */
  lemma ListedKind(mentions: seq<Mention>, m: Mention, d: Dependent)
    requires Coherent(mentions) && m in mentions
    ensures exists e :: e in Listed(mentions) && e.key == m.dependent.key
    ensures d in Listed(mentions) && d.key == m.dependent.key ==> d.kind == m.dependent.kind
  {
    var merged := MergeAll(mentions);
    var keys := SortedKeys(merged);
    MergeAllSummarises(mentions, merged);
    assert m.dependent.key in merged && m.dependent.key in keys;
    var i :| 0 <= i < |keys| && keys[i] == m.dependent.key;
    assert Listed(mentions)[i] == merged[keys[i]] && Summarises(merged[keys[i]], mentions, keys[i]);
    if d in Listed(mentions) && d.key == m.dependent.key {
      var j :| 0 <= j < |keys| && Listed(mentions)[j] == d;
      assert Summarises(merged[keys[j]], mentions, keys[j]);
      assert d.(columnKeys := []) == m.dependent;
    }
  }

  /** A dependent read as an object of another kind shows in the list. */
  lemma MisreadShows(mentions: seq<Mention>, all: seq<Mention>, m: Mention)
    requires Coherent(mentions) && forall x :: x in all <==> RereadFrom(mentions, x)
    requires m in mentions && Reread(m).Some? && Reread(m) != Some(m)
    ensures Listed(all) != Listed(mentions)
  {
    hide Reread, Listed, Coherent;
    var x := Reread(m).value;
    RereadKeepsKey(m);
    RereadCoherent(mentions, all);
    assert x in all;
    ListedKind(all, x, x.dependent);
    var d :| d in Listed(all) && d.key == x.dependent.key;
    ListedKind(all, x, d);
    ListedKind(mentions, m, d);
  }

  /** Where every mention is read as what it is, the lists are one. */
  lemma RecognisedAgree(mentions: seq<Mention>, all: seq<Mention>)
    requires Coherent(mentions) && forall x :: x in all <==> RereadFrom(mentions, x)
    requires forall m :: m in mentions ==> Reread(m) == Some(m)
    ensures MergeAll(all) == MergeAll(mentions)
  {
    hide Reread, Coherent;
    forall x ensures x in all <==> x in mentions {
      if x in mentions { assert RereadFrom(mentions, x); }
      if x in all { var m :| m in mentions && Reread(m) == Some(x); }
    }
    MergeAllCanonical(mentions, all);
  }

  // -------------------------------------------------------------- agreement

  /** A table's own key is read back as that of a table of its name, and the keys of its dependents
      as those of objects of their kinds. */
  ghost predicate Recognised(s: SchemaSnapshot, table: TableObject) {
    && Parse(Print(table.key)).Some? && Parse(Print(table.key)).value.objectKind == Table
    && Parse(Print(table.key)).value.objectName == table.name
    && forall m :: m in SnapshotMentions(s, Print(table.key)) ==> Reread(m) == Some(m)
  }

  lemma TableSelected(g: Graph, snapshotKey: string, s: CanonicalSchemaSnapshot, table: TableObject)
    requires Indexed(g, snapshotKey, s) && table in s.schema.tables
    ensures SelectedTable(g, Print(table.key)) == match Parse(Print(table.key))
                                                  case Some(key) => if key.objectKind == Table then Some(key) else None
                                                  case None => None
  {
    hide Indexed;
    InMapped(s.schema.tables, TableNode, table);
    NodePieces(s, TableNode(table));
    StoredNode(g, snapshotKey, s, TableNode(table));
  }

  /** The parts of the walk, put together. */
  lemma PartsDescribe(g: Graph, snapshotKey: string, t: string, key: ObjectKey, columns: seq<ColumnObject>,
                      constraints: seq<ConstraintObject>,
                      inbound: seq<ConstraintObject>, indexes: seq<IndexObject>, mentions: seq<Mention>)
    requires SelectedTable(g, t) == Some(key) && OwnedColumns(g, t) == Some(columns)
             && OwnedConstraints(g, t) == Some(constraints)
    requires OwnedIndexes(g, t) == Some(indexes) && InboundForeignKeys(g, StableSort(columns, ByOrdinal))
             == Some(inbound)
    requires AllMentions(g, t, StableSort(columns, ByOrdinal)) == Some(mentions)
    ensures Described(g, snapshotKey, t)
         == Some(DescriptionOf(snapshotKey, t, key.objectName, columns, constraints, inbound, indexes,
                               MergeAll(mentions)))
  {
  }

  /** A description of a table by what the snapshot lists for it, under a name and with some dependents. */
  function DescriptionWith(snapshotKey: string, s: SchemaSnapshot, t: string, name: string, mentions: seq<Mention>):
    TableDescription
  {
    DescriptionOf(snapshotKey, t, name, Filter(s.columns, Belongs(ColumnTable, t)),
                  Filter(s.constraints, Belongs(ConstraintTable, t)),
                  Filter(s.constraints, Belongs(ReferencedTable, t)),
                  Filter(s.indexes, Belongs(IndexTable, t)), MergeAll(mentions))
  }

  /** What the index describes. */
  function IndexedDescription(snapshotKey: string, s: SchemaSnapshot, table: TableObject): TableDescription {
    DescriptionWith(snapshotKey, s, Print(table.key), table.name, SnapshotMentions(s, Print(table.key)))
  }

  /** What the walk over the stored graph describes when it does not give up. */
  lemma WalkDescribes(g: Graph, snapshotKey: string, s: CanonicalSchemaSnapshot, table: TableObject,
                      sorted: seq<ColumnObject>, key: ObjectKey, all: seq<Mention>)
    requires Indexed(g, snapshotKey, s) && table in s.schema.tables
    requires sorted == StableSort(Filter(s.schema.columns, Belongs(ColumnTable, Print(table.key))), ByOrdinal)
    requires SelectedTable(g, Print(table.key)) == Some(key) && AllMentions(g, Print(table.key), sorted) == Some(all)
    ensures Described(g, snapshotKey, Print(table.key))
            == Some(DescriptionWith(snapshotKey, s.schema, Print(table.key), key.objectName, all))
  {
    hide Indexed, SelectedTable, AllMentions, Described;
    var t := Print(table.key);
    var columns, constraints := Filter(s.schema.columns, Belongs(ColumnTable, t)),
        Filter(s.schema.constraints, Belongs(ConstraintTable, t));
    var inbound, indexes := Filter(s.schema.constraints, Belongs(ReferencedTable, t)),
        Filter(s.schema.indexes, Belongs(IndexTable, t));
    SortedColumns(s.schema, t, columns, sorted);
    OwnedColumnsAre(g, snapshotKey, s, t, columns);
    OwnedConstraintsAre(g, snapshotKey, s, t, constraints);
    OwnedIndexesAre(g, snapshotKey, s, t, indexes);
    InboundAre(g, snapshotKey, s, t, sorted, inbound);
    PartsDescribe(g, snapshotKey, t, key, columns, constraints, inbound, indexes, all);
  }

  lemma GivenUp(g: Graph, snapshotKey: string, t: string, columns: seq<ColumnObject>)
    requires OwnedColumns(g, t) == Some(columns)
    requires SelectedTable(g, t).None? || AllMentions(g, t, StableSort(columns, ByOrdinal)).None?
    ensures Described(g, snapshotKey, t).None?
  {
  }

  lemma DescriptionsDiffer(k: string, s: SchemaSnapshot, t: string, a: string, b: string, x: seq<Mention>,
                           y: seq<Mention>)
    requires a != b || Listed(x) != Listed(y)
    ensures DescriptionWith(k, s, t, a, x) != DescriptionWith(k, s, t, b, y)
  {
    hide Filter, Belongs, MergeAll, StableSort, MapSeq, PrimaryKeyOf;
  }

  /** The walk describes a table as the index does exactly when it recognises the table and all its
      dependents by their keys. */
  lemma WalkAgreesWhen(g: Graph, snapshotKey: string, s: CanonicalSchemaSnapshot, table: TableObject)
    requires Indexed(g, snapshotKey, s) && table in s.schema.tables
    ensures Described(g, snapshotKey, Print(table.key)) == Some(IndexedDescription(snapshotKey, s.schema, table))
            <==> Recognised(s.schema, table)
    ensures !Rereadable(s.schema, Print(table.key)) ==> Described(g, snapshotKey, Print(table.key)).None?
  {
    hide Indexed, CanonicalWellFormed, SelectedTable, AllMentions, Described, SnapshotMentions, Reread, DescriptionOf,
         Listed, Explained, Parse;
    var t := Print(table.key);
    var columns := Filter(s.schema.columns, Belongs(ColumnTable, t));
    var sorted := StableSort(columns, ByOrdinal);
    IndexedParts(g, snapshotKey, s);
    SchemaPart(s);
    SortedColumns(s.schema, t, columns, sorted);
    OwnedColumnsAre(g, snapshotKey, s, t, columns);
    TableSelected(g, snapshotKey, s, table);
    MentionsAreExplained(s.schema, t);
    if !Rereadable(s.schema, t) {
      WalkGivesUp(g, snapshotKey, s, t, sorted);
      GivenUp(g, snapshotKey, t, columns);
      assert !Recognised(s.schema, table);
    } else if SelectedTable(g, t).None? {
      GivenUp(g, snapshotKey, t, columns);
    } else {
      MentionsAgree(g, snapshotKey, s, t, sorted);
      var all := AllMentions(g, t, sorted).value;
      WalkDescribes(g, snapshotKey, s, table, sorted, SelectedTable(g, t).value, all);
      MergedAgreeWhen(snapshotKey, s.schema, table, SelectedTable(g, t).value, all);
    }
  }

  lemma MergedAgreeWhen(k: string, s: SchemaSnapshot, table: TableObject, key: ObjectKey, all: seq<Mention>)
    requires WellFormed(s) && Parse(Print(table.key)) == Some(key) && key.objectKind == Table
    requires Rereadable(s, Print(table.key))
    requires forall x :: x in all <==> RereadFrom(SnapshotMentions(s, Print(table.key)), x)
    ensures DescriptionWith(k, s, Print(table.key), key.objectName, all) == IndexedDescription(k, s, table)
       <==> Recognised(s, table)
  {
    hide WellFormed, Reread, SnapshotMentions, DescriptionOf, Listed, Explained, Parse, Coherent, MergeAll, Filter;
    var t := Print(table.key);
    var mentions := SnapshotMentions(s, t);
    MentionsAreCoherent(s, t);
    MentionsAreExplained(s, t);
    if Recognised(s, table) {
      RecognisedAgree(mentions, all);
    } else {
      if key.objectName == table.name {
        var m :| m in mentions && Reread(m) != Some(m);
        MisreadShows(mentions, all, m);
      }
      DescriptionsDiffer(k, s, t, key.objectName, table.name, all, mentions);
    }
  }

  lemma SortedColumns(s: SchemaSnapshot, table: string, columns: seq<ColumnObject>, sorted: seq<ColumnObject>)
    requires columns == Filter(s.columns, Belongs(ColumnTable, table)) && sorted == StableSort(columns, ByOrdinal)
    ensures forall c :: c in sorted <==> c in s.columns && ColumnTable(c) == Some(table)
  {
    StableSortElements(columns, ByOrdinal, sorted);
    FilterHolds(s.columns, Belongs(ColumnTable, table), columns);
  }

  /** Constraints listed canonically are already in key order. */
  lemma ConstraintsInOrder(s: CanonicalSchemaSnapshot, table: string, constraints: seq<ConstraintObject>)
    requires CanonicalWellFormed(s) && Normalize(s) == s
             && constraints == Filter(s.schema.constraints, Belongs(ConstraintTable, table))
    ensures StableSort(constraints, ConstraintOrder) == constraints
  {
    hide CanonicalWellFormed;
    CanonicalLists(s);
    FilterSorted(s.schema.constraints, Belongs(ConstraintTable, table), ConstraintOrder, constraints);
    StrictIsSorted(constraints, ConstraintOrder);
    StableSortOfSorted(constraints, ConstraintOrder);
  }

  /** Describes a table both ways. For a table of a certified snapshot in the store the two
      descriptions are equal - columns, primary key, constraints, foreign keys both ways, indexes and
      dependents with their columns, in the same order - exactly when the keys of the table and of its
      dependents are read back as what they are. */
  method DescribeBothWays(g: Graph, snapshotKey: string, s: CanonicalSchemaSnapshot, index: InventoryDescriptionIndex,
                          table: TableObject)
    returns (walked: Option<TableDescription>, indexed: TableDescription)
    requires Indexed(g, snapshotKey, s) && index.Covers(s.schema) && table in s.schema.tables
    ensures indexed == IndexedDescription(snapshotKey, s.schema, table)
    ensures walked == Described(g, snapshotKey, Print(table.key))
    ensures walked == Some(indexed) <==> Recognised(s.schema, table)
    ensures !Rereadable(s.schema, Print(table.key)) ==> walked.None?
  {
    hide Indexed, CanonicalWellFormed, DescriptionOf, Described, Recognised, Rereadable;
    var t := Print(table.key);
    walked := DescribeTable(g, snapshotKey, t);
    indexed := index.Describe(snapshotKey, table, s.schema);
    IndexedParts(g, snapshotKey, s);
    ConstraintsInOrder(s, t, Filter(s.schema.constraints, Belongs(ConstraintTable, t)));
    WalkAgreesWhen(g, snapshotKey, s, table);
  }
}
