/** The schema diff does not see the connection alias: snapshots that differ in nothing else do not
    differ (schema_diff.rs). */
module AliasDiff {
  import opened Wrappers
  import opened Lists
  import opened Ordering
  import opened ObjectKeys
  import opened SchemaModel
  import opened SnapshotRules
  import opened CanonicalRules
  import opened Canonical
  import opened GraphModel
  import opened Projection
  import opened ProjectionClosure
  import opened EdgeTexts
  import opened GraphBuilder
  import opened JsonPayload
  import opened SchemaDiff
  import opened AliasRename

  // -------------------------------------------------- sorting moves no element

  lemma MappedElements<A, B>(f: A -> B, a: seq<A>, b: seq<A>)
    requires forall x :: x in a <==> x in b
    ensures forall y :: y in MapSeq(f, a) <==> y in MapSeq(f, b)
  {
    MappedInto(f, a, b);
    MappedInto(f, b, a);
  }

  lemma MappedInto<A, B>(f: A -> B, a: seq<A>, b: seq<A>)
    requires forall x :: x in a ==> x in b
    ensures forall y :: y in MapSeq(f, a) ==> y in MapSeq(f, b)
  {
    var p, q := MapSeq(f, a), MapSeq(f, b);
    forall i | 0 <= i < |p| ensures p[i] in q {
      assert a[i] in b;
      var j :| 0 <= j < |b| && b[j] == a[i];
      assert q[j] == p[i];
    }
  }

  lemma FlatElements<A, B>(items: seq<A>, sorted: seq<A>, f: A -> seq<B>)
    requires forall x :: x in items <==> x in sorted
    ensures forall y :: y in FlatMap(items, f) <==> y in FlatMap(sorted, f)
  {
    forall y | y in FlatMap(items, f) ensures y in FlatMap(sorted, f) {
      var x := FlatMapFrom(items, f, y);
      FlatMapInto(sorted, f, x, y);
    }
    forall y | y in FlatMap(sorted, f) ensures y in FlatMap(items, f) {
      var x := FlatMapFrom(sorted, f, y);
      FlatMapInto(items, f, x, y);
    }
  }

  ghost predicate SameItems(a: CanonicalSchemaSnapshot, b: CanonicalSchemaSnapshot) {
    && a.schema.database == b.schema.database
    && (forall x :: x in a.schema.schemas <==> x in b.schema.schemas)
       && (forall x :: x in a.schema.tables <==> x in b.schema.tables)
    && (forall x :: x in a.schema.columns <==> x in b.schema.columns)
       && (forall x :: x in a.schema.constraints <==> x in b.schema.constraints)
    && (forall x :: x in a.schema.indexes <==> x in b.schema.indexes)
       && (forall x :: x in a.schema.views <==> x in b.schema.views)
    && (forall x :: x in a.schema.triggers <==> x in b.schema.triggers)
       && (forall x :: x in a.schema.routines <==> x in b.schema.routines)
    && (forall x :: x in a.metadata.objects <==> x in b.metadata.objects)
    && (forall x :: x in a.metadata.relationships <==> x in b.metadata.relationships)
  }

  lemma KeyOrderKeepsItems(s: CanonicalSchemaSnapshot)
    ensures SameItems(s, InKeyOrder(s))
  {
    StableSortElements(s.schema.schemas, SchemaOrder, StableSort(s.schema.schemas, SchemaOrder));
    StableSortElements(s.schema.tables, TableOrder, StableSort(s.schema.tables, TableOrder));
    StableSortElements(s.schema.columns, ColumnOrder, StableSort(s.schema.columns, ColumnOrder));
    StableSortElements(s.schema.constraints, ConstraintOrder, StableSort(s.schema.constraints, ConstraintOrder));
    StableSortElements(s.schema.indexes, IndexOrder, StableSort(s.schema.indexes, IndexOrder));
    StableSortElements(s.schema.views, ViewOrder, StableSort(s.schema.views, ViewOrder));
    StableSortElements(s.schema.triggers, TriggerOrder, StableSort(s.schema.triggers, TriggerOrder));
    StableSortElements(s.schema.routines, RoutineOrder, StableSort(s.schema.routines, RoutineOrder));
    StableSortElements(s.metadata.objects, MetadataOrder, StableSort(s.metadata.objects, MetadataOrder));
    StableSortElements(s.metadata.relationships, BuildOrder, StableSort(s.metadata.relationships, BuildOrder));
  }

  lemma NodeItems(a: CanonicalSchemaSnapshot, b: CanonicalSchemaSnapshot)
    requires SameItems(a, b)
    ensures forall n :: n in NodesInOrder(a) <==> n in NodesInOrder(b)
  {
    MappedElements(SchemaNode, a.schema.schemas, b.schema.schemas);
    MappedElements(TableNode, a.schema.tables, b.schema.tables);
    MappedElements(ColumnNode, a.schema.columns, b.schema.columns);
    MappedElements(ConstraintNode, a.schema.constraints, b.schema.constraints);
    MappedElements(IndexNode, a.schema.indexes, b.schema.indexes);
    MappedElements(ViewNode, a.schema.views, b.schema.views);
    MappedElements(TriggerNode, a.schema.triggers, b.schema.triggers);
    MappedElements(RoutineNode, a.schema.routines, b.schema.routines);
    MappedElements(MetadataNode, a.metadata.objects, b.metadata.objects);
  }

  lemma EdgeItems(a: CanonicalSchemaSnapshot, b: CanonicalSchemaSnapshot)
    requires SameItems(a, b)
    ensures forall e :: e in EdgesInOrder(a) <==> e in EdgesInOrder(b)
  {
    FlatElements(a.schema.schemas, b.schema.schemas, SchemaEdges);
    FlatElements(a.schema.tables, b.schema.tables, TableEdges);
    FlatElements(a.schema.columns, b.schema.columns, ColumnEdges);
    FlatElements(a.schema.constraints, b.schema.constraints, ConstraintEdges);
    FlatElements(a.schema.indexes, b.schema.indexes, IndexEdges);
    FlatElements(a.schema.views, b.schema.views, ViewEdges);
    FlatElements(a.schema.triggers, b.schema.triggers, TriggerEdges);
    FlatElements(a.schema.routines, b.schema.routines, RoutineEdges);
    FlatElements(a.metadata.objects, b.metadata.objects, ParentEdges);
    MappedElements(RelationshipEdge, a.metadata.relationships, b.metadata.relationships);
  }

  lemma PlanItems(s: CanonicalSchemaSnapshot)
    ensures forall n :: n in NodePlan(s) <==> n in NodesInOrder(s)
    ensures forall e :: e in EdgePlan(s) <==> e in EdgesInOrder(s)
  {
    KeyOrderKeepsItems(s);
    NodeItems(s, InKeyOrder(s));
    EdgeItems(s, InKeyOrder(s));
  }

  // ------------------------------------------------------------ stored graphs

  function ComparableOf(key: ObjectKey): string { Print(WithoutAlias(key)) }

  function ComparableEdgeOf(e: PlannedEdge): string {
    EdgeType(e.kind) + ":" + ComparableOf(e.from) + "->" + ComparableOf(e.to)
  }

  /** Every key of the snapshot can be read back and has the snapshot's alias. */
  ghost predicate ReadableUnder(s: CanonicalSchemaSnapshot) {
    forall k :: k in KnownKeys(AllEntries(s)) ==> Readable(k)
  }

  lemma OneAlias(s: CanonicalSchemaSnapshot)
    requires CanonicalWellFormed(s)
    ensures forall k :: k in KnownKeys(AllEntries(s)) ==> k.connectionAlias == s.schema.connectionAlias
  {
    var entries := MetadataEntries(s.metadata.objects);
    forall i | 0 <= i < |entries| ensures entries[i].key.connectionAlias == s.schema.connectionAlias {
      assert MetadataObjectOk(s.schema, s.metadata.objects[i]);
    }
    forall e | e in Entries(s.schema) ensures e.key.connectionAlias == s.schema.connectionAlias {
      assert InScope(e.key, s.schema.connectionAlias, s.schema.database.key);
    }
  }

  lemma RowsAreKeyed(snapshotKey: string, s: CanonicalSchemaSnapshot)
    ensures Keyed(GraphOf(snapshotKey, s))
  {
    UpsertedHolds(NodeRows(snapshotKey, s), RowNodeKey, Upserted(NodeRows(snapshotKey, s), RowNodeKey));
    UpsertedHolds(EdgeRows(snapshotKey, s), RowEdgeKey, Upserted(EdgeRows(snapshotKey, s), RowEdgeKey));
  }

  /** A table whose rows come from a plan with distinct keys holds exactly those rows. */
  lemma ValuesAreRows<K, R>(rows: seq<R>, key: R -> K, table: map<K, R>)
    requires table == Upserted(rows, key) && NoDuplicates(MapSeq(key, rows))
    ensures forall r :: r in table.Values <==> r in rows
  {
    UpsertedHolds(rows, key, table);
    forall r | r in rows ensures r in table.Values {
      UpsertedFind(rows, key, table, r);
      assert key(r) in table;
    }
  }

  /** Keys that differ at most in the alias they all share are equal. */
  lemma ComparableOfInjective(a: ObjectKey, b: ObjectKey)
    requires ComparableOf(a) == ComparableOf(b) && a.connectionAlias == b.connectionAlias
    ensures a == b
  {
    PrintInjective(WithoutAlias(a), WithoutAlias(b));
  }

  lemma ReadableComparable(key: ObjectKey)
    requires Readable(key)
    ensures ComparableObjectKey(Print(key)) == ComparableOf(key)
  {
    ParsePrint(key);
  }

  /** Filing the same rows, in whatever order, under the given texts. */
  lemma Reindexed<R>(texts: seq<string>, rows: seq<R>, stored: seq<R>, key: R -> string, table: map<string, R>)
    requires |texts| == |rows| && (forall i :: 0 <= i < |rows| ==> key(rows[i]) == texts[i])
    requires (forall r :: r in stored <==> r in rows) && table == Upserted(stored, key)
    ensures forall k :: k in table <==> k in texts
  {
    UpsertedHolds(stored, key, table);
    forall i | 0 <= i < |texts| ensures texts[i] in table { assert rows[i] in stored; }
    forall k | k in table ensures k in texts {
      var i :| 0 <= i < |rows| && rows[i] == table[k];
      assert texts[i] == k;
    }
  }

  lemma ReindexedRow<R>(texts: seq<string>, rows: seq<R>, stored: seq<R>, key: R -> string, table: map<string, R>)
    requires |texts| == |rows| && (forall i :: 0 <= i < |rows| ==> key(rows[i]) == texts[i])
    requires (forall r :: r in stored <==> r in rows) && table == Upserted(stored, key)
    requires NoDuplicates(texts) && NoDuplicates(stored)
    ensures forall i :: 0 <= i < |rows| ==> texts[i] in table && table[texts[i]] == rows[i]
  {
    DistinctlyKeyed(texts, rows, stored, key);
    forall i | 0 <= i < |rows| ensures texts[i] in table && table[texts[i]] == rows[i] {
      assert rows[i] in stored;
      UpsertedFind(stored, key, table, rows[i]);
    }
  }

  lemma ReindexedAll<R>(texts: seq<string>, rows: seq<R>, stored: seq<R>, key: R -> string, table: map<string, R>)
    requires |texts| == |rows| && (forall i :: 0 <= i < |rows| ==> key(rows[i]) == texts[i])
    requires (forall r :: r in stored <==> r in rows) && table == Upserted(stored, key)
    requires NoDuplicates(texts) && NoDuplicates(stored)
    ensures forall k :: k in table <==> k in texts
    ensures forall i :: 0 <= i < |rows| ==> texts[i] in table && table[texts[i]] == rows[i]
  {
    Reindexed(texts, rows, stored, key, table);
    ReindexedRow(texts, rows, stored, key, table);
  }

  lemma DistinctlyKeyed<R>(texts: seq<string>, rows: seq<R>, stored: seq<R>, key: R -> string)
    requires |texts| == |rows| && (forall i :: 0 <= i < |rows| ==> key(rows[i]) == texts[i])
    requires (forall r :: r in stored <==> r in rows) && NoDuplicates(texts) && NoDuplicates(stored)
    ensures NoDuplicates(MapSeq(key, stored))
  {
    var keys := MapSeq(key, stored);
    forall i, j | 0 <= i < j < |keys| ensures keys[i] != keys[j] {
      assert stored[i] in rows && stored[j] in rows;
      var p :| 0 <= p < |rows| && rows[p] == stored[i];
      var q :| 0 <= q < |rows| && rows[q] == stored[j];
      assert texts[p] == keys[i] && texts[q] == keys[j] && p != q;
      assert texts[p] != texts[q] by { if p < q { assert texts[p] != texts[q]; } else { assert texts[q] != texts[p]; } }
    }
  }

  function NodeTexts(plan: seq<PlannedNode>): seq<string> { MapSeq((n: PlannedNode) => ComparableOf(n.key), plan) }

  function EdgeTextsOf(plan: seq<PlannedEdge>): seq<string> { MapSeq(ComparableEdgeOf, plan) }

  lemma NodeTextsDistinct(plan: seq<PlannedNode>, alias: string)
    requires NoDuplicates(MapSeq(KeyOfNode, plan)) && forall n :: n in plan ==> n.key.connectionAlias == alias
    ensures NoDuplicates(NodeTexts(plan))
  {
    var texts := NodeTexts(plan);
    forall i, j | 0 <= i < j < |texts| ensures texts[i] != texts[j] {
      assert plan[i] in plan && plan[j] in plan;
      assert MapSeq(KeyOfNode, plan)[i] != MapSeq(KeyOfNode, plan)[j];
      if texts[i] == texts[j] { ComparableOfInjective(plan[i].key, plan[j].key); }
    }
  }

  lemma NodeRowTexts(snapshotKey: string, annotations: seq<ObjectAnnotation>, plan: seq<PlannedNode>,
                     rows: seq<NodeRecord>)
    requires rows == MapSeq((n: PlannedNode) => NodeRowOf(snapshotKey, annotations, n), plan)
    requires forall n :: n in plan ==> Readable(n.key)
    ensures forall i :: 0 <= i < |rows| ==> ComparableNode(rows[i]) == NodeTexts(plan)[i]
  {
    forall i | 0 <= i < |rows| ensures ComparableNode(rows[i]) == NodeTexts(plan)[i] {
      assert plan[i] in plan && rows[i] == NodeRowOf(snapshotKey, annotations, plan[i]);
      ReadableComparable(plan[i].key);
    }
  }

  lemma EdgeRowTexts(snapshotKey: string, plan: seq<PlannedEdge>, rows: seq<EdgeRecord>)
    requires rows == MapSeq((e: PlannedEdge) => EdgeRowOf(snapshotKey, e), plan)
    requires forall e :: e in plan ==> Readable(e.from) && Readable(e.to)
    ensures forall i :: 0 <= i < |rows| ==> ComparableEdgeKey(rows[i]) == EdgeTextsOf(plan)[i]
  {
    forall i | 0 <= i < |rows| ensures ComparableEdgeKey(rows[i]) == EdgeTextsOf(plan)[i] {
      assert plan[i] in plan && rows[i] == EdgeRowOf(snapshotKey, plan[i]);
      EdgeRowText(snapshotKey, plan[i]);
    }
  }

  lemma EdgeRowText(snapshotKey: string, e: PlannedEdge)
    requires Readable(e.from) && Readable(e.to)
    ensures ComparableEdgeKey(EdgeRowOf(snapshotKey, e)) == ComparableEdgeOf(e)
  {
    ReadableComparable(e.from);
    ReadableComparable(e.to);
  }

  lemma ComparableEdgeRenamed(e: PlannedEdge, alias: string)
    ensures ComparableEdgeOf(RenameEdge(e, alias)) == ComparableEdgeOf(e)
  {
    assert WithoutAlias(RenameKey(e.from, alias)) == WithoutAlias(e.from)
           && WithoutAlias(RenameKey(e.to, alias)) == WithoutAlias(e.to);
  }

  lemma StoredNodesAre(g: Graph, rows: seq<NodeRecord>)
    requires g.nodes == Upserted(rows, RowNodeKey) && NoDuplicates(MapSeq(RowNodeKey, rows))
    ensures (forall r :: r in StoredNodes(g) <==> r in rows) && NoDuplicates(StoredNodes(g))
  {
    ValuesAreRows(rows, RowNodeKey, g.nodes);
    StrictlySortedLength(StoredNodes(g), ByNodeKey);
  }

  lemma StoredEdgesAre(g: Graph, rows: seq<EdgeRecord>)
    requires g.edges == Upserted(rows, RowEdgeKey) && NoDuplicates(MapSeq(RowEdgeKey, rows))
    ensures forall r :: r in StoredEdges(g) <==> r in rows
  {
    ValuesAreRows(rows, RowEdgeKey, g.edges);
  }

  /** The planned nodes by comparable key: each is stored under its own. */
  lemma NodesStored(snapshotKey: string, annotations: seq<ObjectAnnotation>, plan: seq<PlannedNode>, alias: string,
                    rows: seq<NodeRecord>, g: Graph)
    requires rows == MapSeq((n: PlannedNode) => NodeRowOf(snapshotKey, annotations, n), plan)
    requires NoDuplicates(MapSeq(KeyOfNode, plan)) && g.nodes == Upserted(rows, RowNodeKey)
    requires forall n :: n in plan ==> Readable(n.key) && n.key.connectionAlias == alias
    ensures forall k :: k in NodesByComparable(g) <==> k in NodeTexts(plan)
    ensures forall i :: 0 <= i < |plan| ==>
              NodeTexts(plan)[i] in NodesByComparable(g) && NodesByComparable(g)[NodeTexts(plan)[i]] == rows[i]
  {
    hide ComparableNode, StoredNodes, Readable;
    RowKeysDistinct(snapshotKey, annotations, plan, rows);
    StoredNodesAre(g, rows);
    NodeRowTexts(snapshotKey, annotations, plan, rows);
    NodeTextsDistinct(plan, alias);
    ReindexedAll(NodeTexts(plan), rows, StoredNodes(g), ComparableNode, NodesByComparable(g));
  }

  /** The planned edges by comparable key: exactly theirs are stored. */
  lemma EdgesStored(snapshotKey: string, plan: seq<PlannedEdge>, rows: seq<EdgeRecord>, g: Graph)
    requires rows == MapSeq((e: PlannedEdge) => EdgeRowOf(snapshotKey, e), plan)
    requires NoDuplicates(MapSeq(RowEdgeKey, rows)) && g.edges == Upserted(rows, RowEdgeKey)
    requires forall e :: e in plan ==> Readable(e.from) && Readable(e.to)
    ensures forall k :: k in EdgesByComparable(g) <==> k in EdgeTextsOf(plan)
  {
    hide Readable, StoredEdges, ComparableEdgeKey;
    StoredEdgesAre(g, rows);
    EdgeRowTexts(snapshotKey, plan, rows);
    Reindexed(EdgeTextsOf(plan), rows, StoredEdges(g), ComparableEdgeKey, EdgesByComparable(g));
  }

  // -------------------------------------------------------------- annotations

  lemma {:induction false} AnnotationRenamed(annotations: seq<ObjectAnnotation>, renamed: seq<ObjectAnnotation>,
                                             key: ObjectKey, alias: string)
    requires |renamed| == |annotations| && forall i :: 0 <= i < |annotations| ==>
             renamed[i] == RenameAnnotation(annotations[i], alias)
    requires forall i :: 0 <= i < |annotations| ==> annotations[i].objectKey.connectionAlias == key.connectionAlias
    ensures AnnotationFor(renamed, RenameKey(key, alias))
         == match AnnotationFor(annotations, key) case Some(a) => Some(RenameAnnotation(a, alias)) case None => None
  {
    if annotations != [] {
      var n := |annotations| - 1;
      assert renamed[n].objectKey == RenameKey(key, alias) <==> annotations[n].objectKey == key by {
        if renamed[n].objectKey == RenameKey(key, alias) {
          assert annotations[n].objectKey == RenameKey(annotations[n].objectKey, key.connectionAlias);
        }
      }
      AnnotationRenamed(annotations[..n], renamed[..n], key, alias);
    }
  }

  lemma RowsAreSame(k1: string, k2: string, n: PlannedNode, annotations: seq<ObjectAnnotation>,
                    renamed: seq<ObjectAnnotation>, alias: string)
    requires |renamed| == |annotations| && forall i :: 0 <= i < |annotations| ==>
             renamed[i] == RenameAnnotation(annotations[i], alias)
    requires forall i :: 0 <= i < |annotations| ==> annotations[i].objectKey.connectionAlias == n.key.connectionAlias
    ensures Same(NodeRowOf(k1, annotations, n), NodeRowOf(k2, renamed, RenameNode(n, alias)))
  {
    AnnotationRenamed(annotations, renamed, n.key, alias);
    PayloadBlind(NodePayload(n.content, AnnotationFor(annotations, n.key)), alias);
  }

  // ----------------------------------------------------------------- no change

  lemma PlanFacts(s: CanonicalSchemaSnapshot)
    requires CanonicalWellFormed(s) && ReadableUnder(s)
    ensures NoDuplicates(MapSeq(KeyOfNode, NodePlan(s)))
    ensures forall n :: n in NodePlan(s) ==> Readable(n.key) && n.key.connectionAlias == s.schema.connectionAlias
    ensures forall e :: e in EdgePlan(s) ==> Readable(e.from) && Readable(e.to)
  {
    hide CanonicalWellFormed;
    NodeKeysDistinct(s);
    OneAlias(s);
    KeysOfPlan(NodePlan(s));
    EdgePlanJoins(s);
    forall e | e in EdgePlan(s) ensures Readable(e.from) && Readable(e.to) {
      assert Joins(KnownKeys(AllEntries(s)), e);
    }
  }

  lemma KeysOfPlan(plan: seq<PlannedNode>)
    ensures forall n :: n in plan ==> n.key in MapSeq(KeyOfNode, plan)
  {
    forall i | 0 <= i < |plan| ensures plan[i].key in MapSeq(KeyOfNode, plan) {
      assert MapSeq(KeyOfNode, plan)[i] == plan[i].key;
    }
  }

  /** The comparable keys of a renamed plan are those of the plan. */
  lemma TextsRenamed(plan: seq<PlannedNode>, other: seq<PlannedNode>, alias: string)
    requires forall n :: n in plan ==> RenameNode(n, alias) in other
    ensures forall k :: k in NodeTexts(plan) ==> k in NodeTexts(other)
  {
    var texts := NodeTexts(plan);
    forall i | 0 <= i < |texts| ensures texts[i] in NodeTexts(other) {
      assert RenameNode(plan[i], alias) in other;
      var j :| 0 <= j < |other| && other[j] == RenameNode(plan[i], alias);
      assert NodeTexts(other)[j] == texts[i];
    }
  }

  lemma TextsRenamedBack(plan: seq<PlannedNode>, other: seq<PlannedNode>, alias: string)
    requires forall m :: m in other ==> exists n :: n in plan && RenameNode(n, alias) == m
    ensures forall k :: k in NodeTexts(other) ==> k in NodeTexts(plan)
  {
    var texts := NodeTexts(other);
    forall j | 0 <= j < |texts| ensures texts[j] in NodeTexts(plan) {
      assert other[j] in other;
      var n :| n in plan && RenameNode(n, alias) == other[j];
      var i :| 0 <= i < |plan| && plan[i] == n;
      assert NodeTexts(plan)[i] == texts[j];
    }
  }

  lemma EdgeTextsRenamed(plan: seq<PlannedEdge>, other: seq<PlannedEdge>, alias: string)
    requires Renames(plan, other, alias)
    ensures forall k :: k in EdgeTextsOf(plan) <==> k in EdgeTextsOf(other)
  {
    var p, q := EdgeTextsOf(plan), EdgeTextsOf(other);
    forall i | 0 <= i < |p| ensures p[i] in q {
      assert plan[i] in plan;
      var j :| 0 <= j < |other| && other[j] == RenameEdge(plan[i], alias);
      ComparableEdgeRenamed(plan[i], alias);
      assert q[j] == p[i];
    }
    forall j | 0 <= j < |q| ensures q[j] in p {
      assert Origin(plan, other[j], alias);
      var e :| e in plan && RenameEdge(e, alias) == other[j];
      var i :| 0 <= i < |plan| && plan[i] == e;
      ComparableEdgeRenamed(e, alias);
      assert p[i] == q[j];
    }
  }

  lemma PlansRenamed(s: CanonicalSchemaSnapshot, alias: string)
    ensures forall n :: n in NodePlan(s) ==> RenameNode(n, alias) in NodePlan(Renamed(s, alias))
    ensures forall m :: m in NodePlan(Renamed(s, alias)) ==> exists n :: n in NodePlan(s) && RenameNode(n, alias) == m
    ensures Renames(EdgePlan(s), EdgePlan(Renamed(s, alias)), alias)
  {
    PlanItems(s);
    PlanItems(Renamed(s, alias));
    NodesRenamed(s, alias);
    EdgesRename(s, alias);
    RenamedMembers(NodesInOrder(s), NodesInOrder(Renamed(s, alias)), alias);
    forall e | e in EdgePlan(Renamed(s, alias)) ensures Origin(EdgePlan(s), e, alias) {
      assert Origin(EdgesInOrder(s), e, alias);
      var x :| x in EdgesInOrder(s) && RenameEdge(x, alias) == e;
      assert x in EdgePlan(s);
    }
  }

  lemma RenamedMembers(nodes: seq<PlannedNode>, renamed: seq<PlannedNode>, alias: string)
    requires renamed == RenameNodes(nodes, alias)
    ensures forall n :: n in nodes ==> RenameNode(n, alias) in renamed
    ensures forall m :: m in renamed ==> exists n :: n in nodes && RenameNode(n, alias) == m
  {
    forall i | 0 <= i < |nodes| ensures RenameNode(nodes[i], alias) in renamed {
      assert renamed[i] == RenameNode(nodes[i], alias);
    }
    forall i | 0 <= i < |renamed| ensures exists n :: n in nodes && RenameNode(n, alias) == renamed[i] {
      assert nodes[i] in nodes;
    }
  }

  /** Two stored snapshots that differ only in their connection alias give an empty diff, provided
      their keys can be read back and no two edges of either share a text key. */
  lemma AliasIsInvisible(k1: string, k2: string, s: CanonicalSchemaSnapshot, alias: string)
    requires CanonicalWellFormed(s) && ReadableUnder(s) && NoDuplicates(Texts(EdgePlan(s)))
    requires CanonicalWellFormed(Renamed(s, alias)) && ReadableUnder(Renamed(s, alias))
             && NoDuplicates(Texts(EdgePlan(Renamed(s, alias))))
    ensures Keyed(GraphOf(k1, s)) && Keyed(GraphOf(k2, Renamed(s, alias)))
    ensures Compare(GraphOf(k1, s), GraphOf(k2, Renamed(s, alias))) == NoDifference
  {
    hide CanonicalWellFormed;
    var t := Renamed(s, alias);
    RowsAreKeyed(k1, s);
    RowsAreKeyed(k2, t);
    var g, h: Graph := GraphOf(k1, s), GraphOf(k2, t);
    NodesUnchanged(k1, k2, s, alias, g, h);
    EdgesUnchanged(k1, k2, s, alias, g, h);
    NoDifferenceWhen(g, h);
  }

  lemma EdgesOfGraph(k: string, s: CanonicalSchemaSnapshot, g: Graph)
    requires CanonicalWellFormed(s) && ReadableUnder(s) && NoDuplicates(Texts(EdgePlan(s))) && g == GraphOf(k, s)
    ensures forall c :: c in EdgesByComparable(g) <==> c in EdgeTextsOf(EdgePlan(s))
  {
    hide CanonicalWellFormed;
    PlanFacts(s);
    RowTextsArePlanned(k, EdgePlan(s), EdgeRows(k, s));
    EdgesStored(k, EdgePlan(s), EdgeRows(k, s), g);
  }

  lemma RowTextsArePlanned(k: string, plan: seq<PlannedEdge>, rows: seq<EdgeRecord>)
    requires rows == MapSeq((e: PlannedEdge) => EdgeRowOf(k, e), plan)
    ensures MapSeq(RowEdgeKey, rows) == Texts(plan)
  {
    forall i | 0 <= i < |rows| ensures rows[i].edgeKey == EdgeKeyText(plan[i]) {
      assert rows[i] == EdgeRowOf(k, plan[i]);
    }
  }

  lemma EdgesUnchanged(k1: string, k2: string, s: CanonicalSchemaSnapshot, alias: string, g: Graph, h: Graph)
    requires CanonicalWellFormed(s) && ReadableUnder(s) && NoDuplicates(Texts(EdgePlan(s))) && g == GraphOf(k1, s)
    requires var t := Renamed(s, alias);
             CanonicalWellFormed(t) && ReadableUnder(t) && NoDuplicates(Texts(EdgePlan(t)))
             && h == GraphOf(k2, t)
    ensures EdgesByComparable(g).Keys == EdgesByComparable(h).Keys
  {
    hide CanonicalWellFormed;
    EdgesOfGraph(k1, s, g);
    EdgesOfGraph(k2, Renamed(s, alias), h);
    PlansRenamed(s, alias);
    EdgeTextsRenamed(EdgePlan(s), EdgePlan(Renamed(s, alias)), alias);
  }

  lemma NodesOfGraph(k: string, s: CanonicalSchemaSnapshot, g: Graph)
    requires CanonicalWellFormed(s) && ReadableUnder(s) && g == GraphOf(k, s)
    ensures forall c :: c in NodesByComparable(g) <==> c in NodeTexts(NodePlan(s))
    ensures forall i :: 0 <= i < |NodePlan(s)| ==>
              NodeTexts(NodePlan(s))[i] in NodesByComparable(g)
                  && NodesByComparable(g)[NodeTexts(NodePlan(s))[i]] == NodeRows(k, s)[i]
  {
    hide CanonicalWellFormed;
    PlanFacts(s);
    NodesStored(k, s.metadata.annotations, NodePlan(s), s.schema.connectionAlias, NodeRows(k, s), g);
  }

  lemma NodesUnchanged(k1: string, k2: string, s: CanonicalSchemaSnapshot, alias: string, g: Graph, h: Graph)
    requires CanonicalWellFormed(s) && ReadableUnder(s) && g == GraphOf(k1, s)
    requires var t := Renamed(s, alias); CanonicalWellFormed(t) && ReadableUnder(t) && h == GraphOf(k2, t)
    ensures NodesByComparable(g).Keys == NodesByComparable(h).Keys
            && AllSame(NodesByComparable(g), NodesByComparable(h))
  {
    hide CanonicalWellFormed, ReadableUnder, GraphOf, NodePlan, AllSame;
    var t := Renamed(s, alias);
    NodesOfGraph(k1, s, g);
    NodesOfGraph(k2, t, h);
    PlansRenamed(s, alias);
    AliasOfPlan(s);
    AnnotationAliases(s);
    TablesUnchanged(k1, k2, s.metadata.annotations, t.metadata.annotations, NodePlan(s), NodePlan(t), NodeRows(k1, s),
                    NodeRows(k2, t),
                    NodesByComparable(g), NodesByComparable(h), s.schema.connectionAlias, alias);
  }

  lemma AliasOfPlan(s: CanonicalSchemaSnapshot)
    requires CanonicalWellFormed(s) && ReadableUnder(s)
    ensures forall n :: n in NodePlan(s) ==> n.key.connectionAlias == s.schema.connectionAlias
  {
    hide CanonicalWellFormed;
    PlanFacts(s);
  }

  lemma TablesUnchanged(k1: string, k2: string, annotations: seq<ObjectAnnotation>, renamed: seq<ObjectAnnotation>,
                        plan: seq<PlannedNode>,
                        other: seq<PlannedNode>, rows: seq<NodeRecord>, otherRows: seq<NodeRecord>,
                        f: map<string, NodeRecord>, t: map<string, NodeRecord>,
                        from: string, alias: string)
    requires |renamed| == |annotations| && forall i :: 0 <= i < |annotations| ==>
             renamed[i] == RenameAnnotation(annotations[i], alias)
    requires forall i :: 0 <= i < |annotations| ==> annotations[i].objectKey.connectionAlias == from
    requires forall n :: n in plan ==> n.key.connectionAlias == from
    requires forall n :: n in plan ==> RenameNode(n, alias) in other
    requires forall m :: m in other ==> exists n :: n in plan && RenameNode(n, alias) == m
    requires rows == MapSeq((n: PlannedNode) => NodeRowOf(k1, annotations, n), plan)
    requires otherRows == MapSeq((n: PlannedNode) => NodeRowOf(k2, renamed, n), other)
    requires (forall k :: k in f <==> k in NodeTexts(plan)) && (forall k :: k in t <==> k in NodeTexts(other))
    requires forall i :: 0 <= i < |plan| ==> NodeTexts(plan)[i] in f && f[NodeTexts(plan)[i]] == rows[i]
    requires forall j :: 0 <= j < |other| ==> NodeTexts(other)[j] in t && t[NodeTexts(other)[j]] == otherRows[j]
    ensures f.Keys == t.Keys && AllSame(f, t)
  {
    assert f.Keys == t.Keys by {
      TextsRenamed(plan, other, alias);
      TextsRenamedBack(plan, other, alias);
    }
    forall i | 0 <= i < |rows| ensures Partnered(NodeTexts(plan)[i], rows[i], NodeTexts(other), otherRows) {
      assert plan[i] in plan;
      var j :| 0 <= j < |other| && other[j] == RenameNode(plan[i], alias);
      RenamedTogether(k1, k2, annotations, renamed, plan[i], other[j], alias);
    }
    PartnersAreSame(NodeTexts(plan), rows, NodeTexts(other), otherRows, f, t);
  }

  /** Somewhere among the others a row is filed under the same text and counts as the same. */
  ghost predicate Partnered(text: string, row: NodeRecord, others: seq<string>, otherRows: seq<NodeRecord>)
    requires |others| == |otherRows|
  {
    exists j :: 0 <= j < |others| && others[j] == text && Same(row, otherRows[j])
  }

  lemma PartnersAreSame(texts: seq<string>, rows: seq<NodeRecord>, others: seq<string>, otherRows: seq<NodeRecord>,
                        f: map<string, NodeRecord>, t: map<string, NodeRecord>)
    requires |texts| == |rows| && |others| == |otherRows|
    requires (forall k :: k in f ==> k in texts) && forall i :: 0 <= i < |texts| ==>
             texts[i] in f && f[texts[i]] == rows[i]
    requires forall j :: 0 <= j < |others| ==> others[j] in t && t[others[j]] == otherRows[j]
    requires forall i :: 0 <= i < |rows| ==> Partnered(texts[i], rows[i], others, otherRows)
    ensures AllSame(f, t)
  {
    forall k | k in f && k in t ensures Same(f[k], t[k]) {
      var i :| 0 <= i < |texts| && texts[i] == k;
      assert Partnered(texts[i], rows[i], others, otherRows);
    }
  }

  lemma AnnotationAliases(s: CanonicalSchemaSnapshot)
    requires CanonicalWellFormed(s)
    ensures forall i :: 0 <= i < |s.metadata.annotations| ==>
            s.metadata.annotations[i].objectKey.connectionAlias == s.schema.connectionAlias
  {
    OneAlias(s);
    forall i | 0 <= i < |s.metadata.annotations| ensures s.metadata.annotations[i].objectKey.connectionAlias
        == s.schema.connectionAlias {
      assert AnnotationOk(KnownKeys(AllEntries(s)), s.metadata.annotations[i]);
    }
  }

  lemma RenamedTogether(k1: string, k2: string, annotations: seq<ObjectAnnotation>, renamed: seq<ObjectAnnotation>,
                        n: PlannedNode, m: PlannedNode, alias: string)
    requires |renamed| == |annotations| && forall i :: 0 <= i < |annotations| ==>
             renamed[i] == RenameAnnotation(annotations[i], alias)
    requires forall i :: 0 <= i < |annotations| ==> annotations[i].objectKey.connectionAlias == n.key.connectionAlias
    requires m == RenameNode(n, alias)
    ensures Same(NodeRowOf(k1, annotations, n), NodeRowOf(k2, renamed, m)) && ComparableOf(m.key) == ComparableOf(n.key)
  {
    RowsAreSame(k1, k2, n, annotations, renamed, alias);
    assert WithoutAlias(m.key) == WithoutAlias(n.key);
  }
}
