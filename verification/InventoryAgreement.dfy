/** The two descriptions of a table agree: the one walked off the stored graph and the one indexed
    from the snapshot (crates/database-memory-cli/src/metadata.rs). */
module InventoryAgreement {
  import opened Wrappers
  import opened Lists
  import opened Ordering
  import opened ObjectKeys
  import opened SchemaModel
  import opened SnapshotRules
  import opened CanonicalRules
  import opened Canonical
  import opened GraphModel
  import opened Projection
  import opened ProjectionClosure
  import opened EdgeTexts
  import opened GraphBuilder
  import opened TableDescriptions
  import opened GraphDescription
  import opened Inventory
  import opened InventoryFacts

  // ---------------------------------------------------------- reading in order

  lemma {:induction false} CollectAsFilter<T(!new)>(edges: seq<EdgeRecord>, wanted: EdgeRecord -> bool,
                                                    read: EdgeRecord -> Option<T>, out: seq<T>)
    requires |out| == |Filter(edges, wanted)|
    requires forall i :: 0 <= i < |out| ==> read(Filter(edges, wanted)[i]) == Some(out[i])
    ensures CollectEdges(edges, wanted, read) == Some(out)
  {
    if edges != [] {
      var init, last := edges[..|edges| - 1], edges[|edges| - 1];
      assert edges == init + [last];
      FilterLast(init, last, wanted);
      CollectLast(init, last, wanted, read);
      if wanted(last) {
        var n := |out| - 1;
        assert Filter(edges, wanted)[n] == last && forall i :: 0 <= i < n ==>
               Filter(edges, wanted)[i] == Filter(init, wanted)[i];
        CollectAsFilter(init, wanted, read, out[..n]);
        assert out == out[..n] + [out[n]];
      } else {
        assert Filter(edges, wanted) == Filter(init, wanted);
        CollectAsFilter(init, wanted, read, out);
      }
    }
  }

  function TargetOf(r: EdgeRecord): string { r.edgeTo }

  /** Edges that share all of their key but the target are sorted by target. */
  lemma TargetsSorted(rows: seq<EdgeRecord>, prefix: string)
    requires StrictlySorted(rows, ByEdgeKey) && forall r :: r in rows ==> r.edgeKey == prefix + r.edgeTo
    ensures StrictlySorted(MapSeq(TargetOf, rows), ByText)
  {
    var targets := MapSeq(TargetOf, rows);
    forall i, j | 0 <= i < j < |targets| ensures Less(ByText(targets[i]), ByText(targets[j])) {
      assert rows[i] in rows && rows[j] in rows;
      ByTextLess(rows[i].edgeKey, rows[j].edgeKey);
      TextLessAfterPrefix(prefix, rows[i].edgeTo, rows[j].edgeTo);
      ByTextLess(rows[i].edgeTo, rows[j].edgeTo);
    }
  }

  /** Two lists of the same distinct texts in order are one list. */
  lemma SameTexts(rows: seq<EdgeRecord>, prefix: string, labels: seq<string>)
    requires StrictlySorted(rows, ByEdgeKey) && forall r :: r in rows ==> r.edgeKey == prefix + r.edgeTo
    requires StrictlySorted(labels, ByText)
    requires forall r :: r in rows ==> r.edgeTo in labels
    requires forall text :: text in labels ==> text in MapSeq(TargetOf, rows)
    ensures |rows| == |labels| && forall i :: 0 <= i < |rows| ==> rows[i].edgeTo == labels[i]
  {
    TargetsSorted(rows, prefix);
    var targets := MapSeq(TargetOf, rows);
    forall text ensures text in targets <==> text in labels {
      if text in targets {
        var i :| 0 <= i < |targets| && targets[i] == text;
        assert rows[i] in rows;
      }
    }
    StrictlySortedUnique(targets, labels, ByText);
  }

  lemma InTargets(rows: seq<EdgeRecord>, r: EdgeRecord)
    requires r in rows
    ensures r.edgeTo in MapSeq(TargetOf, rows)
  {
    var i :| 0 <= i < |rows| && rows[i] == r;
    assert MapSeq(TargetOf, rows)[i] == r.edgeTo;
  }

  // -------------------------------------------------------- canonical order

  lemma KeyOrderStrict<T>(items: seq<T>, order: T -> SortKey, key: T -> ObjectKey)
    requires StableSort(items, order) == items && NoDuplicates(MapSeq(key, items))
    requires forall x :: x in items ==> order(x) == ByKey(key(x))
    ensures StrictlySorted(items, order)
  {
    StableSortKeeps(items, order);
    forall i, j | 0 <= i < j < |items| ensures Less(order(items[i]), order(items[j])) {
      assert items[i] in items && items[j] in items;
      LessTotal(order(items[i]), order(items[j]));
      assert MapSeq(key, items)[i] != MapSeq(key, items)[j];
      if order(items[i]) == order(items[j]) { ByKeyInjective(key(items[i]), key(items[j])); }
    }
  }

  lemma CanonicalLists(s: CanonicalSchemaSnapshot)
    requires CanonicalWellFormed(s) && Normalize(s) == s
    ensures StrictlySorted(s.schema.columns, ColumnOrder) && StrictlySorted(s.schema.constraints, ConstraintOrder)
    ensures StrictlySorted(s.schema.indexes, IndexOrder)
  {
    CollectionsDistinct(s.schema);
    var n := NormalSchema(s.schema);
    assert n == s.schema;
    KeyOrderStrict(s.schema.columns, ColumnOrder, ColumnKey);
    KeyOrderStrict(s.schema.constraints, ConstraintOrder, ConstraintKey);
    KeyOrderStrict(s.schema.indexes, IndexOrder, IndexKey);
  }

  function Labels<T>(items: seq<T>, key: T -> ObjectKey): seq<string> { MapSeq((x: T) => Print(key(x)), items) }

  lemma LabelsSorted<T>(items: seq<T>, order: T -> SortKey, key: T -> ObjectKey)
    requires StrictlySorted(items, order) && forall x :: x in items ==> order(x) == ByKey(key(x))
    ensures StrictlySorted(Labels(items, key), ByText)
  {
    var labels := Labels(items, key);
    forall i, j | 0 <= i < j < |labels| ensures Less(ByText(labels[i]), ByText(labels[j])) {
      assert items[i] in items && items[j] in items;
      assert labels[i] == Print(key(items[i])) && labels[j] == Print(key(items[j]));
    }
  }

  lemma InLabels<T>(items: seq<T>, key: T -> ObjectKey, x: T)
    requires x in items
    ensures Print(key(x)) in Labels(items, key)
  {
    var i :| 0 <= i < |items| && items[i] == x;
    assert Labels(items, key)[i] == Print(key(x));
  }

  // ------------------------------------------------------------ owned objects

  function OwnedPrefix(edgeType: string, table: string): string { edgeType + ":" + table + "->" }

  lemma OwnedText(e: PlannedEdge, table: string)
    requires e.relationship.None? && Print(e.from) == table
    ensures EdgeKeyText(e) == OwnedPrefix(EdgeType(e.kind), table) + Print(e.to)
  {
    var text := EdgeType(e.kind) + ":" + Print(e.from) + "->" + Print(e.to);
    assert text + [] == text;
  }

  /** The planned edge behind a row of one type that leaves a table. */
  lemma OwnedRow(g: Graph, snapshotKey: string, s: CanonicalSchemaSnapshot, table: string, r: EdgeRecord,
                 kind: EdgeKind)
    returns (e: PlannedEdge)
    requires Indexed(g, snapshotKey, s) && r in OutRows(g, table) && !kind.Related? && r.edgeType == EdgeType(kind)
    ensures e in EdgesInOrder(s) && e.kind == kind && Print(e.from) == table && r == EdgeRowOf(snapshotKey, e)
  {
    hide Indexed, EdgeType;
    e := PlannedOf(g, snapshotKey, s, r);
    KindOfType(e.kind, kind);
  }

  lemma ColumnRow(g: Graph, snapshotKey: string, s: CanonicalSchemaSnapshot, table: string, r: EdgeRecord)
    returns (c: ColumnObject)
    requires Indexed(g, snapshotKey, s) && r in OutRows(g, table) && r.edgeType == "TABLE_HAS_COLUMN"
    ensures c in s.schema.columns && Print(c.tableKey) == table && r.edgeTo == Print(c.key)
    ensures r.edgeKey == OwnedPrefix("TABLE_HAS_COLUMN", table) + r.edgeTo
  {
    hide Indexed, CanonicalWellFormed;
    IndexedParts(g, snapshotKey, s);
    var e := OwnedRow(g, snapshotKey, s, table, r, HasColumn);
    c := ColumnEdgeFrom(s, e);
    OwnedText(e, table);
  }

  lemma ConstraintRow(g: Graph, snapshotKey: string, s: CanonicalSchemaSnapshot, table: string, r: EdgeRecord)
    returns (c: ConstraintObject)
    requires Indexed(g, snapshotKey, s) && r in OutRows(g, table) && r.edgeType == "TABLE_HAS_CONSTRAINT"
    ensures c in s.schema.constraints && Print(c.tableKey) == table && r.edgeTo == Print(c.key)
    ensures r.edgeKey == OwnedPrefix("TABLE_HAS_CONSTRAINT", table) + r.edgeTo
  {
    hide Indexed, CanonicalWellFormed;
    IndexedParts(g, snapshotKey, s);
    var e := OwnedRow(g, snapshotKey, s, table, r, HasConstraint);
    c := ConstraintEdgeFrom(s, e);
    OwnedText(e, table);
  }

  lemma IndexRow(g: Graph, snapshotKey: string, s: CanonicalSchemaSnapshot, table: string, r: EdgeRecord)
    returns (i: IndexObject)
    requires Indexed(g, snapshotKey, s) && r in OutRows(g, table) && r.edgeType == "TABLE_HAS_INDEX"
    ensures i in s.schema.indexes && Print(i.tableKey) == table && r.edgeTo == Print(i.key)
    ensures r.edgeKey == OwnedPrefix("TABLE_HAS_INDEX", table) + r.edgeTo
  {
    hide Indexed, CanonicalWellFormed;
    IndexedParts(g, snapshotKey, s);
    var e := OwnedRow(g, snapshotKey, s, table, r, HasIndex);
    i := IndexEdgeFrom(s, e);
    OwnedText(e, table);
  }

  /** A planned edge is met on the way out of the object it starts from. */
  lemma OwnedTargeted(g: Graph, snapshotKey: string, s: CanonicalSchemaSnapshot, e: PlannedEdge)
    requires Indexed(g, snapshotKey, s) && e in EdgesInOrder(s)
    ensures Targeted(EdgesFrom(g, Print(e.from)), OfEdgeTypeNamed(EdgeType(e.kind)), Print(e.to))
  {
    hide Indexed, EdgesInOrder, EdgeType;
    var r := RowStored(g, snapshotKey, s, e);
    assert r in EdgesFrom(g, Print(e.from)) && OfEdgeTypeNamed(EdgeType(e.kind))(r);
  }

  lemma ColumnFound(g: Graph, snapshotKey: string, s: CanonicalSchemaSnapshot, c: ColumnObject)
    requires Indexed(g, snapshotKey, s) && c in s.schema.columns
    ensures Targeted(EdgesFrom(g, Print(c.tableKey)), OfEdgeTypeNamed("TABLE_HAS_COLUMN"), Print(c.key))
    ensures ReadColumn(g, Print(c.key)) == Some(c)
  {
    hide Indexed, EdgesInOrder, Targeted;
    ColumnEdgePlanned(s, c);
    OwnedTargeted(g, snapshotKey, s, Plain(HasColumn, c.tableKey, c.key));
    ColumnStored(g, snapshotKey, s, c);
  }

  lemma ConstraintFound(g: Graph, snapshotKey: string, s: CanonicalSchemaSnapshot, c: ConstraintObject)
    requires Indexed(g, snapshotKey, s) && c in s.schema.constraints
    ensures Targeted(EdgesFrom(g, Print(c.tableKey)), OfEdgeTypeNamed("TABLE_HAS_CONSTRAINT"), Print(c.key))
    ensures ReadConstraint(g, Print(c.key)) == Some(c)
  {
    hide Indexed, EdgesInOrder, Targeted;
    ConstraintEdgePlanned(s, c);
    OwnedTargeted(g, snapshotKey, s, Plain(HasConstraint, c.tableKey, c.key));
    ConstraintStored(g, snapshotKey, s, c);
  }

  lemma IndexFound(g: Graph, snapshotKey: string, s: CanonicalSchemaSnapshot, i: IndexObject)
    requires Indexed(g, snapshotKey, s) && i in s.schema.indexes
    ensures Targeted(EdgesFrom(g, Print(i.tableKey)), OfEdgeTypeNamed("TABLE_HAS_INDEX"), Print(i.key))
    ensures ReadIndex(g, Print(i.key)) == Some(i)
  {
    hide Indexed, EdgesInOrder, Targeted;
    IndexEdgePlanned(s, i);
    OwnedTargeted(g, snapshotKey, s, Plain(HasIndex, i.tableKey, i.key));
    IndexStored(g, snapshotKey, s, i);
  }

  lemma ColumnStored(g: Graph, snapshotKey: string, s: CanonicalSchemaSnapshot, c: ColumnObject)
    requires Indexed(g, snapshotKey, s) && c in s.schema.columns
    ensures ReadColumn(g, Print(c.key)) == Some(c)
  {
    hide Indexed;
    InMapped(s.schema.columns, ColumnNode, c);
    NodePieces(s, ColumnNode(c));
    StoredNode(g, snapshotKey, s, ColumnNode(c));
  }

  lemma ConstraintStored(g: Graph, snapshotKey: string, s: CanonicalSchemaSnapshot, c: ConstraintObject)
    requires Indexed(g, snapshotKey, s) && c in s.schema.constraints
    ensures ReadConstraint(g, Print(c.key)) == Some(c)
  {
    hide Indexed;
    InMapped(s.schema.constraints, ConstraintNode, c);
    NodePieces(s, ConstraintNode(c));
    StoredNode(g, snapshotKey, s, ConstraintNode(c));
  }

  lemma IndexStored(g: Graph, snapshotKey: string, s: CanonicalSchemaSnapshot, i: IndexObject)
    requires Indexed(g, snapshotKey, s) && i in s.schema.indexes
    ensures ReadIndex(g, Print(i.key)) == Some(i)
  {
    hide Indexed;
    InMapped(s.schema.indexes, IndexNode, i);
    NodePieces(s, IndexNode(i));
    StoredNode(g, snapshotKey, s, IndexNode(i));
  }

  lemma InMapped<A, B>(items: seq<A>, f: A -> B, x: A)
    requires x in items
    ensures f(x) in MapSeq(f, items)
  {
    var i :| 0 <= i < |items| && items[i] == x;
    assert MapSeq(f, items)[i] == f(x);
  }

  lemma NodePieces(s: CanonicalSchemaSnapshot, n: PlannedNode)
    requires || n in MapSeq(TableNode, s.schema.tables) || n in MapSeq(ColumnNode, s.schema.columns)
             || n in MapSeq(ConstraintNode, s.schema.constraints) || n in MapSeq(IndexNode, s.schema.indexes)
             || n in MapSeq(ViewNode, s.schema.views) || n in MapSeq(TriggerNode, s.schema.triggers)
                || n in MapSeq(RoutineNode, s.schema.routines)
    ensures n in NodesInOrder(s)
  {
  }

  /** Some wanted edge leads to a key. */
  ghost predicate Targeted(edges: seq<EdgeRecord>, wanted: EdgeRecord -> bool, text: string) {
    exists r :: r in edges && wanted(r) && r.edgeTo == text
  }

  lemma LabelsAt<T>(items: seq<T>, key: T -> ObjectKey)
    ensures forall i :: 0 <= i < |items| ==> Labels(items, key)[i] == Print(key(items[i])) && items[i] in items
  {
  }

  /** Edges in order whose targets are the given keys in order read as the given objects. */
  lemma OwnedAre<T(!new)>(edges: seq<EdgeRecord>, wanted: EdgeRecord -> bool, read: EdgeRecord -> Option<T>,
                          readAt: string -> Option<T>, out: seq<T>,
                          labels: seq<string>, prefix: string)
    requires StrictlySorted(edges, ByEdgeKey) && StrictlySorted(labels, ByText) && |labels| == |out|
    requires forall r :: r in edges && wanted(r) ==> r.edgeKey == prefix + r.edgeTo && r.edgeTo in labels
    requires forall i :: 0 <= i < |labels| ==> Targeted(edges, wanted, labels[i]) && readAt(labels[i]) == Some(out[i])
    requires forall r :: read(r) == readAt(r.edgeTo)
    ensures CollectEdges(edges, wanted, read) == Some(out)
  {
    var rows := Filter(edges, wanted);
    FilterHolds(edges, wanted, rows);
    FilterSorted(edges, wanted, ByEdgeKey, rows);
    forall i | 0 <= i < |labels| ensures labels[i] in MapSeq(TargetOf, rows) {
      assert Targeted(edges, wanted, labels[i]);
      var r :| r in edges && wanted(r) && r.edgeTo == labels[i];
      InTargets(rows, r);
    }
    SameTexts(rows, prefix, labels);
    CollectAsFilter(edges, wanted, read, out);
  }

  /** Every edge of one type out of a table leads to an object of a list. */
  ghost predicate LedTo<T(!new)>(g: Graph, table: string, edgeType: string, out: seq<T>, key: T -> ObjectKey) {
    forall r :: r in EdgesFrom(g, table) && r.edgeType == edgeType ==>
        LeadsInto(r, OwnedPrefix(edgeType, table), out, key)
  }

  ghost predicate LeadsInto<T(!new)>(r: EdgeRecord, prefix: string, out: seq<T>, key: T -> ObjectKey) {
    r.edgeKey == prefix + r.edgeTo && exists x :: x in out && r.edgeTo == Print(key(x))
  }

  /** Every object of a list is led to, and read back whole. */
  ghost predicate Reached<T(!new)>(g: Graph, table: string, edgeType: string, out: seq<T>, key: T -> ObjectKey,
                                   readAt: string -> Option<T>) {
    forall x :: x in out ==>
      Targeted(EdgesFrom(g, table), OfEdgeTypeNamed(edgeType), Print(key(x))) && readAt(Print(key(x))) == Some(x)
  }

  /** Walking the edges of one type out of a table reads exactly the objects it owns, in the snapshot's order. */
  lemma OwnedInOrder<T(!new)>(g: Graph, table: string, edgeType: string, all: seq<T>, belongs: T -> bool,
                              order: T -> SortKey,
                              key: T -> ObjectKey, read: EdgeRecord -> Option<T>, readAt: string -> Option<T>,
                              out: seq<T>)
    requires StrictlySorted(all, order) && out == Filter(all, belongs) && forall x :: order(x) == ByKey(key(x))
    requires LedTo(g, table, edgeType, out, key) && Reached(g, table, edgeType, out, key, readAt)
    requires forall r :: read(r) == readAt(r.edgeTo)
    ensures CollectEdges(EdgesFrom(g, table), OfEdgeTypeNamed(edgeType), read) == Some(out)
  {
    hide Targeted, Filter;
    FilterSorted(all, belongs, order, out);
    LabelsSorted(out, order, key);
    LabelsAt(out, key);
    forall r | r in EdgesFrom(g, table) && r.edgeType == edgeType ensures r.edgeTo in Labels(out, key) {
      assert LeadsInto(r, OwnedPrefix(edgeType, table), out, key);
      var x :| x in out && r.edgeTo == Print(key(x));
      InLabels(out, key, x);
    }
    OwnedAre(EdgesFrom(g, table), OfEdgeTypeNamed(edgeType), read, readAt, out, Labels(out, key),
             OwnedPrefix(edgeType, table));
  }

  function ColumnAt(g: Graph): string -> Option<ColumnObject> { (text: string) => ReadColumn(g, text) }

  lemma ColumnRowFits(g: Graph, snapshotKey: string, s: CanonicalSchemaSnapshot, table: string, out: seq<ColumnObject>,
                      r: EdgeRecord)
    requires Indexed(g, snapshotKey, s) && r in OutRows(g, table) && r.edgeType == "TABLE_HAS_COLUMN"
    requires forall x :: x in out <==> x in s.schema.columns && ColumnTable(x) == Some(table)
    ensures LeadsInto(r, OwnedPrefix("TABLE_HAS_COLUMN", table), out, ColumnKey)
  {
    hide Indexed;
    var x := ColumnRow(g, snapshotKey, s, table, r);
    assert x in out && ColumnKey(x) == x.key;
  }

  lemma ColumnsMet(g: Graph, snapshotKey: string, s: CanonicalSchemaSnapshot, table: string, out: seq<ColumnObject>)
    requires Indexed(g, snapshotKey, s) && forall x ::
               x in out <==> x in s.schema.columns && ColumnTable(x) == Some(table)
    ensures LedTo(g, table, "TABLE_HAS_COLUMN", out, ColumnKey)
            && Reached(g, table, "TABLE_HAS_COLUMN", out, ColumnKey, ColumnAt(g))
  {
    hide Indexed, LeadsInto, Targeted, ReadColumn;
    forall r | r in EdgesFrom(g, table) && r.edgeType == "TABLE_HAS_COLUMN"
      ensures LeadsInto(r, OwnedPrefix("TABLE_HAS_COLUMN", table), out, ColumnKey) {
      ColumnRowFits(g, snapshotKey, s, table, out, r);
    }
    forall x | x in out
      ensures Targeted(EdgesFrom(g, table), OfEdgeTypeNamed("TABLE_HAS_COLUMN"), Print(ColumnKey(x)))
              && ColumnAt(g)(Print(ColumnKey(x))) == Some(x)
    {
      ColumnFound(g, snapshotKey, s, x);
    }
  }

  /** Walking a table's column edges reads exactly its columns, in the snapshot's order. */
  lemma OwnedColumnsAre(g: Graph, snapshotKey: string, s: CanonicalSchemaSnapshot, table: string,
                        out: seq<ColumnObject>)
    requires Indexed(g, snapshotKey, s) && out == Filter(s.schema.columns, Belongs(ColumnTable, table))
    ensures OwnedColumns(g, table) == Some(out)
  {
    hide Indexed, CanonicalWellFormed, Normalize, GraphOf, LedTo, Reached;
    IndexedParts(g, snapshotKey, s);
    CanonicalLists(s);
    FilterHolds(s.schema.columns, Belongs(ColumnTable, table), out);
    ColumnsMet(g, snapshotKey, s, table, out);
    OwnedInOrder(g, table, "TABLE_HAS_COLUMN", s.schema.columns, Belongs(ColumnTable, table), ColumnOrder, ColumnKey,
                 ColumnAtTarget(g), ColumnAt(g), out);
  }

  function ConstraintAt(g: Graph): string -> Option<ConstraintObject> { (text: string) => ReadConstraint(g, text) }

  lemma ConstraintRowFits(g: Graph, snapshotKey: string, s: CanonicalSchemaSnapshot, table: string,
                          out: seq<ConstraintObject>, r: EdgeRecord)
    requires Indexed(g, snapshotKey, s) && r in OutRows(g, table) && r.edgeType == "TABLE_HAS_CONSTRAINT"
    requires forall x :: x in out <==> x in s.schema.constraints && ConstraintTable(x) == Some(table)
    ensures LeadsInto(r, OwnedPrefix("TABLE_HAS_CONSTRAINT", table), out, ConstraintKey)
  {
    hide Indexed;
    var x := ConstraintRow(g, snapshotKey, s, table, r);
    assert x in out && ConstraintKey(x) == x.key;
  }

  lemma ConstraintsMet(g: Graph, snapshotKey: string, s: CanonicalSchemaSnapshot, table: string,
                       out: seq<ConstraintObject>)
    requires Indexed(g, snapshotKey, s) && forall x ::
               x in out <==> x in s.schema.constraints && ConstraintTable(x) == Some(table)
    ensures LedTo(g, table, "TABLE_HAS_CONSTRAINT", out, ConstraintKey)
            && Reached(g, table, "TABLE_HAS_CONSTRAINT", out, ConstraintKey, ConstraintAt(g))
  {
    hide Indexed, LeadsInto, Targeted, ReadConstraint;
    forall r | r in EdgesFrom(g, table) && r.edgeType == "TABLE_HAS_CONSTRAINT"
      ensures LeadsInto(r, OwnedPrefix("TABLE_HAS_CONSTRAINT", table), out, ConstraintKey) {
      ConstraintRowFits(g, snapshotKey, s, table, out, r);
    }
    forall x | x in out
      ensures Targeted(EdgesFrom(g, table), OfEdgeTypeNamed("TABLE_HAS_CONSTRAINT"), Print(ConstraintKey(x)))
              && ConstraintAt(g)(Print(ConstraintKey(x))) == Some(x)
    {
      ConstraintFound(g, snapshotKey, s, x);
    }
  }

  /** Walking a table's constraint edges reads exactly its constraints, in the snapshot's order. */
  lemma OwnedConstraintsAre(g: Graph, snapshotKey: string, s: CanonicalSchemaSnapshot, table: string,
                            out: seq<ConstraintObject>)
    requires Indexed(g, snapshotKey, s) && out == Filter(s.schema.constraints, Belongs(ConstraintTable, table))
    ensures OwnedConstraints(g, table) == Some(out)
  {
    hide Indexed, CanonicalWellFormed, Normalize, GraphOf, LedTo, Reached;
    IndexedParts(g, snapshotKey, s);
    CanonicalLists(s);
    FilterHolds(s.schema.constraints, Belongs(ConstraintTable, table), out);
    ConstraintsMet(g, snapshotKey, s, table, out);
    OwnedInOrder(g, table, "TABLE_HAS_CONSTRAINT", s.schema.constraints, Belongs(ConstraintTable, table),
                 ConstraintOrder, ConstraintKey, ConstraintAtTarget(g), ConstraintAt(g), out);
  }

  function IndexAt(g: Graph): string -> Option<IndexObject> { (text: string) => ReadIndex(g, text) }

  lemma IndexRowFits(g: Graph, snapshotKey: string, s: CanonicalSchemaSnapshot, table: string, out: seq<IndexObject>,
                     r: EdgeRecord)
    requires Indexed(g, snapshotKey, s) && r in OutRows(g, table) && r.edgeType == "TABLE_HAS_INDEX"
    requires forall x :: x in out <==> x in s.schema.indexes && IndexTable(x) == Some(table)
    ensures LeadsInto(r, OwnedPrefix("TABLE_HAS_INDEX", table), out, IndexKey)
  {
    hide Indexed;
    var x := IndexRow(g, snapshotKey, s, table, r);
    assert x in out && IndexKey(x) == x.key;
  }

  lemma IndexesMet(g: Graph, snapshotKey: string, s: CanonicalSchemaSnapshot, table: string, out: seq<IndexObject>)
    requires Indexed(g, snapshotKey, s) && forall x ::
               x in out <==> x in s.schema.indexes && IndexTable(x) == Some(table)
    ensures LedTo(g, table, "TABLE_HAS_INDEX", out, IndexKey)
            && Reached(g, table, "TABLE_HAS_INDEX", out, IndexKey, IndexAt(g))
  {
    hide Indexed, LeadsInto, Targeted, ReadIndex;
    forall r | r in EdgesFrom(g, table) && r.edgeType == "TABLE_HAS_INDEX"
      ensures LeadsInto(r, OwnedPrefix("TABLE_HAS_INDEX", table), out, IndexKey) {
      IndexRowFits(g, snapshotKey, s, table, out, r);
    }
    forall x | x in out
      ensures Targeted(EdgesFrom(g, table), OfEdgeTypeNamed("TABLE_HAS_INDEX"), Print(IndexKey(x)))
              && IndexAt(g)(Print(IndexKey(x))) == Some(x)
    {
      IndexFound(g, snapshotKey, s, x);
    }
  }

  /** Walking a table's index edges reads exactly its indexes, in the snapshot's order. */
  lemma OwnedIndexesAre(g: Graph, snapshotKey: string, s: CanonicalSchemaSnapshot, table: string, out: seq<IndexObject>)
    requires Indexed(g, snapshotKey, s) && out == Filter(s.schema.indexes, Belongs(IndexTable, table))
    ensures OwnedIndexes(g, table) == Some(out)
  {
    hide Indexed, CanonicalWellFormed, Normalize, GraphOf, LedTo, Reached;
    IndexedParts(g, snapshotKey, s);
    CanonicalLists(s);
    FilterHolds(s.schema.indexes, Belongs(IndexTable, table), out);
    IndexesMet(g, snapshotKey, s, table, out);
    OwnedInOrder(g, table, "TABLE_HAS_INDEX", s.schema.indexes, Belongs(IndexTable, table), IndexOrder, IndexKey,
                 IndexAtTarget(g), IndexAt(g), out);
  }
}
