/** `describe_table`: a table's description read off the stored graph, edge by edge
    (crates/database-memory-cli/src/metadata.rs). Every error is `None`. */
module GraphDescription {
  import opened Wrappers
  import opened Lists
  import opened Ordering
  import opened ObjectKeys
  import opened SchemaModel
  import opened GraphModel
  import opened TableDescriptions
  import opened SchemaDiff

  // ---------------------------------------------------------------- payloads

  function NodeAt(g: Graph, key: string): Option<NodeRecord> { if key in g.nodes then Some(g.nodes[key]) else None }

  function ReadColumn(g: Graph, key: string): Option<ColumnObject> {
    match NodeAt(g, key)
    case Some(node) => (match node.payload.content case OfColumn(c) => Some(c) case _ => None)
    case None => None
  }

  function ReadConstraint(g: Graph, key: string): Option<ConstraintObject> {
    match NodeAt(g, key)
    case Some(node) => (match node.payload.content case OfConstraint(c) => Some(c) case _ => None)
    case None => None
  }

  function ReadForeignKey(g: Graph, key: string): Option<ConstraintObject> {
    match ReadConstraint(g, key)
    case Some(c) => if c.kind == ForeignKeyRule then Some(c) else None
    case None => None
  }

  function ReadIndex(g: Graph, key: string): Option<IndexObject> {
    match NodeAt(g, key)
    case Some(node) => (match node.payload.content case OfIndex(i) => Some(i) case _ => None)
    case None => None
  }

  function RelationName(edgeType: string): string {
    if edgeType == "VIEW_DEPENDS_ON_TABLE" || edgeType == "VIEW_DEPENDS_ON_COLUMN" then "view_depends_on"
    else if edgeType == "ROUTINE_DEPENDS_ON_TABLE" || edgeType == "ROUTINE_DEPENDS_ON_COLUMN" then "routine_depends_on"
    else if edgeType == "TABLE_HAS_TRIGGER" then "table_has_trigger"
    else edgeType
  }

  /** `dependent_from_node`: only views, triggers and routines can depend. */
  function ReadMention(g: Graph, key: string, edgeType: string, column: Option<string>): Option<Mention> {
    match NodeAt(g, key)
    case None => None
    case Some(node) =>
      match Parse(node.nodeKey)
      case None => None
      case Some(k) =>
        if k.objectKind !in {View, Trigger, Routine} then None
        else Some(Mention(Dependent(node.nodeKey, KindText(k.objectKind),
                                    (match node.displayName case Some(name) => name case None => k.objectName),
                                    RelationName(edgeType), []), column))
  }

  // -------------------------------------------------------------- collecting

  /** Reads the wanted edges one after another; the first that cannot be read ends it. */
  function CollectEdges<T>(edges: seq<EdgeRecord>, wanted: EdgeRecord -> bool,
                           read: EdgeRecord -> Option<T>): Option<seq<T>> {
    if edges == [] then Some([])
    else
      var init, last := edges[..|edges| - 1], edges[|edges| - 1];
      match CollectEdges(init, wanted, read)
      case None => None
      case Some(items) => if !wanted(last) then Some(items)
      else (match read(last) case Some(x) => Some(items + [x]) case None => None)
  }

  lemma CollectLast<T>(edges: seq<EdgeRecord>, last: EdgeRecord, wanted: EdgeRecord -> bool,
                       read: EdgeRecord -> Option<T>)
    ensures CollectEdges(edges + [last], wanted, read)
         == match CollectEdges(edges, wanted, read)
            case None => None
            case Some(items) => if !wanted(last) then Some(items)
            else (match read(last) case Some(x) => Some(items + [x]) case None => None)
  {
    assert (edges + [last])[..|edges|] == edges;
  }

  lemma {:induction false} CollectFails<T>(edges: seq<EdgeRecord>, n: nat, wanted: EdgeRecord -> bool,
                                           read: EdgeRecord -> Option<T>)
    requires n <= |edges| && CollectEdges(edges[..n], wanted, read).None?
    ensures CollectEdges(edges, wanted, read).None?
    decreases |edges| - n
  {
    if n < |edges| {
      PrefixLast(edges, n);
      CollectLast(edges[..n], edges[n], wanted, read);
      CollectFails(edges, n + 1, wanted, read);
    } else {
      WholePrefix(edges);
    }
  }

  method Collect<T>(edges: seq<EdgeRecord>, wanted: EdgeRecord -> bool, read: EdgeRecord -> Option<T>)
    returns (r: Option<seq<T>>)
    ensures r == CollectEdges(edges, wanted, read)
  {
    var items: seq<T> := [];
    for i := 0 to |edges|
      invariant CollectEdges(edges[..i], wanted, read) == Some(items)
    {
      CollectLast(edges[..i], edges[i], wanted, read);
      PrefixLast(edges, i);
      if wanted(edges[i]) {
        var x := read(edges[i]);
        if x.None? {
          CollectFails(edges, i + 1, wanted, read);
          return None;
        }
        items := items + [x.value];
      }
    }
    WholePrefix(edges);
    return Some(items);
  }

  /** The same over a list of node keys. */
  function ReadAll<T>(keys: seq<string>, read: string -> Option<T>): Option<seq<T>> {
    if keys == [] then Some([])
    else
      match (read(keys[0]), ReadAll(keys[1..], read))
      case (Some(x), Some(rest)) => Some([x] + rest)
      case _ => None
  }

  method ReadNodes<T>(keys: seq<string>, read: string -> Option<T>) returns (r: Option<seq<T>>)
    ensures r == ReadAll(keys, read)
    decreases |keys|
  {
    if keys == [] { return Some([]); }
    var first := read(keys[0]);
    if first.None? { return None; }
    var rest := ReadNodes(keys[1..], read);
    return match rest case Some(items) => Some([first.value] + items) case None => None;
  }

  // -------------------------------------------------------------- the lists

  predicate HasType(e: EdgeRecord, edgeType: string) { e.edgeType == edgeType }

  function OfEdgeTypeNamed(edgeType: string): EdgeRecord -> bool { (e: EdgeRecord) => HasType(e, edgeType) }

  function ColumnAtTarget(g: Graph): EdgeRecord -> Option<ColumnObject> { (e: EdgeRecord) => ReadColumn(g, e.edgeTo) }

  function ConstraintAtTarget(g: Graph): EdgeRecord -> Option<ConstraintObject> {
    (e: EdgeRecord) => ReadConstraint(g, e.edgeTo)
  }

  function IndexAtTarget(g: Graph): EdgeRecord -> Option<IndexObject> { (e: EdgeRecord) => ReadIndex(g, e.edgeTo) }

  function MentionAtSource(g: Graph, column: Option<string>): EdgeRecord -> Option<Mention> {
    (e: EdgeRecord) => ReadMention(g, e.edgeFrom, e.edgeType, column)
  }

  function TriggerAtTarget(g: Graph): EdgeRecord -> Option<Mention> {
    (e: EdgeRecord) => ReadMention(g, e.edgeTo, e.edgeType, None)
  }

  function ForeignKeyAt(g: Graph): string -> Option<ConstraintObject> { (k: string) => ReadForeignKey(g, k) }

  function OwnedColumns(g: Graph, table: string): Option<seq<ColumnObject>> {
    CollectEdges(EdgesFrom(g, table), OfEdgeTypeNamed("TABLE_HAS_COLUMN"), ColumnAtTarget(g))
  }

  function OwnedConstraints(g: Graph, table: string): Option<seq<ConstraintObject>> {
    CollectEdges(EdgesFrom(g, table), OfEdgeTypeNamed("TABLE_HAS_CONSTRAINT"), ConstraintAtTarget(g))
  }

  function OwnedIndexes(g: Graph, table: string): Option<seq<IndexObject>> {
    CollectEdges(EdgesFrom(g, table), OfEdgeTypeNamed("TABLE_HAS_INDEX"), IndexAtTarget(g))
  }

  /** The foreign keys that name one of the columns, as a set of node keys. */
  function InboundKeys(g: Graph, columns: seq<ColumnObject>): set<string> {
    set c, e | c in columns && e in InRows(g, Print(c.key)) && HasType(e, "FK_TO_COLUMN") :: e.edgeFrom
  }

  function ForeignKeysInto(edges: seq<EdgeRecord>): set<string> {
    set e | e in edges && HasType(e, "FK_TO_COLUMN") :: e.edgeFrom
  }

  method CollectSources(edges: seq<EdgeRecord>, keys0: set<string>) returns (keys: set<string>)
    ensures keys == keys0 + ForeignKeysInto(edges)
  {
    keys := keys0;
    for i := 0 to |edges|
      invariant keys == keys0 + ForeignKeysInto(edges[..i])
    {
      PrefixLast(edges, i);
      if edges[i].edgeType == "FK_TO_COLUMN" { keys := keys + {edges[i].edgeFrom}; }
    }
    WholePrefix(edges);
  }

  method CollectInbound(g: Graph, columns: seq<ColumnObject>) returns (keys: set<string>)
    ensures keys == InboundKeys(g, columns)
  {
    keys := {};
    for i := 0 to |columns|
      invariant keys == InboundKeys(g, columns[..i])
    {
      InboundMore(g, columns[..i], columns[i]);
      keys := CollectSources(EdgesTo(g, Print(columns[i].key)), keys);
      PrefixLast(columns, i);
    }
    WholePrefix(columns);
  }

  lemma InboundMore(g: Graph, columns: seq<ColumnObject>, last: ColumnObject)
    ensures InboundKeys(g, columns + [last]) == InboundKeys(g, columns) + ForeignKeysInto(EdgesTo(g, Print(last.key)))
  {
    assert forall c :: c in columns + [last] <==> c in columns || c == last;
  }

  function TextsInOrder(keys: set<string>): seq<string> {
    assert Distinguishes(keys, ByText) by {
      forall x, y | x in keys && y in keys && ByText(x) == ByText(y) ensures x == y { assert [x][0] == [y][0]; }
    }
    OrderBy(keys, ByText)
  }

  function InboundForeignKeys(g: Graph, columns: seq<ColumnObject>): Option<seq<ConstraintObject>> {
    ReadAll(TextsInOrder(InboundKeys(g, columns)), ForeignKeyAt(g))
  }

  // -------------------------------------------------------------- dependents

  predicate DependsOnTable(e: EdgeRecord) {
    e.edgeType == "VIEW_DEPENDS_ON_TABLE" || e.edgeType == "ROUTINE_DEPENDS_ON_TABLE"
  }

  predicate DependsOnColumn(e: EdgeRecord) {
    e.edgeType == "VIEW_DEPENDS_ON_COLUMN" || e.edgeType == "ROUTINE_DEPENDS_ON_COLUMN"
  }

  function TableMentions(g: Graph, table: string): Option<seq<Mention>> {
    CollectEdges(EdgesTo(g, table), DependsOnTable, MentionAtSource(g, None))
  }

  function ColumnMentions(g: Graph, column: string): Option<seq<Mention>> {
    CollectEdges(EdgesTo(g, column), DependsOnColumn, MentionAtSource(g, Some(column)))
  }

  function TriggerMentions(g: Graph, table: string): Option<seq<Mention>> {
    CollectEdges(EdgesFrom(g, table), OfEdgeTypeNamed("TABLE_HAS_TRIGGER"), TriggerAtTarget(g))
  }

  function Joined<T>(a: Option<seq<T>>, b: Option<seq<T>>): Option<seq<T>> {
    match (a, b) case (Some(x), Some(y)) => Some(x + y) case _ => None
  }

  function AllColumnMentions(g: Graph, columns: seq<ColumnObject>): Option<seq<Mention>> {
    if columns == [] then Some([])
    else Joined(AllColumnMentions(g, columns[..|columns| - 1]), ColumnMentions(g, Print(columns[|columns| - 1].key)))
  }

  /** Every mention of a dependent, in the order the edges are walked. */
  function AllMentions(g: Graph, table: string, columns: seq<ColumnObject>): Option<seq<Mention>> {
    Joined(Joined(TableMentions(g, table), AllColumnMentions(g, columns)), TriggerMentions(g, table))
  }

  /** Merges the mentions of some edges into what is there. */
  method MergeEdges(edges: seq<EdgeRecord>, wanted: EdgeRecord -> bool, read: EdgeRecord -> Option<Mention>,
                    dependents0: map<string, Dependent>, ghost before: seq<Mention>)
    returns (ok: bool, dependents: map<string, Dependent>, ghost after: seq<Mention>)
    requires dependents0 == MergeAll(before)
    ensures ok <==> CollectEdges(edges, wanted, read).Some?
    ensures ok ==> after == before + CollectEdges(edges, wanted, read).value && dependents == MergeAll(after)
  {
    ok, dependents, after := true, dependents0, before;
    ghost var read0: seq<Mention> := [];
    for i := 0 to |edges|
      invariant CollectEdges(edges[..i], wanted, read) == Some(read0) && after == before + read0
                && dependents == MergeAll(after)
    {
      CollectLast(edges[..i], edges[i], wanted, read);
      PrefixLast(edges, i);
      if wanted(edges[i]) {
        var m := read(edges[i]);
        if m.None? {
          CollectFails(edges, i + 1, wanted, read);
          ok := false;
          return;
        }
        MergeLast(after, m.value);
        assert (before + read0) + [m.value] == before + (read0 + [m.value]);
        dependents, after, read0 := Merge(dependents, m.value), after + [m.value], read0 + [m.value];
      }
    }
    WholePrefix(edges);
  }

  /** The mentions found at the columns, merged into what is there. */
  method MergeColumns(g: Graph, columns: seq<ColumnObject>, dependents0: map<string, Dependent>,
                      ghost before: seq<Mention>)
    returns (ok: bool, dependents: map<string, Dependent>, ghost after: seq<Mention>)
    requires dependents0 == MergeAll(before)
    ensures ok <==> AllColumnMentions(g, columns).Some?
    ensures ok ==> after == before + AllColumnMentions(g, columns).value && dependents == MergeAll(after)
  {
    ok, dependents, after := true, dependents0, before;
    ghost var found: seq<Mention> := [];
    for i := 0 to |columns|
      invariant AllColumnMentions(g, columns[..i]) == Some(found) && after == before + found
                && dependents == MergeAll(after)
    {
      PrefixLast(columns, i);
      ColumnMentionsLast(g, columns[..i], columns[i]);
      ok, dependents, after := MergeColumn(g, Print(columns[i].key), dependents, after);
      if !ok {
        ColumnMentionsFail(g, columns, i + 1);
        return;
      }
      ghost var more := ColumnMentions(g, Print(columns[i].key)).value;
      ThreeJoined(before, found, more);
      found := found + more;
    }
    WholePrefix(columns);
  }

  lemma ThreeJoined<T>(a: seq<T>, b: seq<T>, c: seq<T>)
    ensures (a + b) + c == a + (b + c)
  {
  }

  method MergeColumn(g: Graph, column: string, dependents0: map<string, Dependent>, ghost before: seq<Mention>)
    returns (ok: bool, dependents: map<string, Dependent>, ghost after: seq<Mention>)
    requires dependents0 == MergeAll(before)
    ensures ok <==> ColumnMentions(g, column).Some?
    ensures ok ==> after == before + ColumnMentions(g, column).value && dependents == MergeAll(after)
  {
    ok, dependents, after := MergeEdges(EdgesTo(g, column), DependsOnColumn, MentionAtSource(g, Some(column)),
                                        dependents0, before);
  }

  /** `table_dependents`. */
  method TableDependents(g: Graph, table: string, columns: seq<ColumnObject>)
    returns (r: Option<map<string, Dependent>>)
    ensures r == match AllMentions(g, table, columns) case Some(mentions) => Some(MergeAll(mentions)) case None => None
  {
    var ok, dependents, mentions := MergeEdges(EdgesTo(g, table), DependsOnTable, MentionAtSource(g, None), map[], []);
    if !ok { return None; }
    assert [] + TableMentions(g, table).value == TableMentions(g, table).value;
    ok, dependents, mentions := MergeColumns(g, columns, dependents, mentions);
    if !ok { return None; }
    ok, dependents, mentions := MergeEdges(EdgesFrom(g, table), OfEdgeTypeNamed("TABLE_HAS_TRIGGER"),
                                           TriggerAtTarget(g), dependents, mentions);
    return if ok then Some(dependents) else None;
  }

  lemma ColumnMentionsLast(g: Graph, columns: seq<ColumnObject>, last: ColumnObject)
    ensures AllColumnMentions(g, columns + [last])
            == Joined(AllColumnMentions(g, columns), ColumnMentions(g, Print(last.key)))
  {
    assert (columns + [last])[..|columns|] == columns;
  }

  lemma {:induction false} ColumnMentionsFail(g: Graph, columns: seq<ColumnObject>, n: nat)
    requires n <= |columns| && AllColumnMentions(g, columns[..n]).None?
    ensures AllColumnMentions(g, columns).None?
    decreases |columns| - n
  {
    if n < |columns| {
      PrefixLast(columns, n);
      ColumnMentionsLast(g, columns[..n], columns[n]);
      ColumnMentionsFail(g, columns, n + 1);
    } else {
      WholePrefix(columns);
    }
  }

  // ------------------------------------------------------------ description

  /** The table a node key selects. */
  function SelectedTable(g: Graph, table: string): Option<ObjectKey> {
    match NodeAt(g, table)
    case None => None
    case Some(node) =>
      match Parse(node.nodeKey)
      case None => None
      case Some(key) => if node.nodeLabel != "Table" || key.objectKind != Table then None else Some(key)
  }

  /** What the walk over the stored graph amounts to. */
  function Described(g: Graph, snapshotKey: string, table: string): Option<TableDescription> {
    match (SelectedTable(g, table), OwnedColumns(g, table), OwnedConstraints(g, table))
    case (Some(key), Some(owned), Some(constraints)) =>
      var columns := StableSort(owned, ByOrdinal);
      (match (InboundForeignKeys(g, columns), AllMentions(g, table, columns), OwnedIndexes(g, table))
       case (Some(inbound), Some(mentions), Some(indexes)) =>
         Some(DescriptionOf(snapshotKey, table, key.objectName, owned, constraints, inbound, indexes,
                            MergeAll(mentions)))
       case _ => None)
    case _ => None
  }

  /** `describe_table`, for a table selected by its object key. */
  method DescribeTable(g: Graph, snapshotKey: string, table: string) returns (r: Option<TableDescription>)
    ensures r == Described(g, snapshotKey, table)
  {
    var key := SelectedTable(g, table);
    if key.None? { return None; }
    var owned := Collect(EdgesFrom(g, table), OfEdgeTypeNamed("TABLE_HAS_COLUMN"), ColumnAtTarget(g));
    if owned.None? { return None; }
    var columns := StableSort(owned.value, ByOrdinal);
    var constraints := Collect(EdgesFrom(g, table), OfEdgeTypeNamed("TABLE_HAS_CONSTRAINT"), ConstraintAtTarget(g));
    if constraints.None? { return None; }
    var primaryKey := FindPrimaryKey(constraints.value);
    var outbound := StableSort(MapSeq(ForeignKeyOf, Filter(constraints.value, IsForeignKeyRule)), ByForeignKeyName);
    var inboundKeys := CollectInbound(g, columns);
    var inbound := ReadNodes(TextsInOrder(inboundKeys), ForeignKeyAt(g));
    if inbound.None? { return None; }
    var dependents := TableDependents(g, table, columns);
    if dependents.None? { return None; }
    var indexes := Collect(EdgesFrom(g, table), OfEdgeTypeNamed("TABLE_HAS_INDEX"), IndexAtTarget(g));
    if indexes.None? { return None; }
    return Some(TableDescription(
      snapshotKey, table, key.value.objectName, columns, primaryKey, constraints.value, outbound,
      StableSort(MapSeq(ForeignKeyOf, inbound.value), ByForeignKeyName), StableSort(indexes.value, ByIndexName),
      Lookup(dependents.value, SortedKeys(dependents.value))));
  }
}
