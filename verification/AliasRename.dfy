/** Renaming the connection alias of a snapshot, and what that does to its planned graph. */
module AliasRename {
  import opened Wrappers
  import opened Lists
  import opened Ordering
  import opened ObjectKeys
  import opened SchemaModel
  import opened Canonical
  import opened GraphModel
  import opened Projection
  import opened JsonPayload
  import opened PayloadContents

  function RenameKey(k: ObjectKey, alias: string): ObjectKey { k.(connectionAlias := alias) }

  function RenameKeys(keys: seq<ObjectKey>, alias: string): (r: seq<ObjectKey>) {
    MapSeq((k: ObjectKey) => RenameKey(k, alias), keys)
  }

  function RenameOption(k: Option<ObjectKey>, alias: string): Option<ObjectKey> {
    match k case Some(key) => Some(RenameKey(key, alias)) case None => None
  }

  function RenameDatabase(o: DatabaseObject, alias: string): DatabaseObject { o.(key := RenameKey(o.key, alias)) }

  function RenameSchema(o: SchemaObject, alias: string): SchemaObject {
    o.(key := RenameKey(o.key, alias), databaseKey := RenameKey(o.databaseKey, alias))
  }

  function RenameTable(o: TableObject, alias: string): TableObject {
    o.(key := RenameKey(o.key, alias), schemaKey := RenameKey(o.schemaKey, alias))
  }

  function RenameColumn(o: ColumnObject, alias: string): ColumnObject {
    o.(key := RenameKey(o.key, alias), tableKey := RenameKey(o.tableKey, alias))
  }

  function RenameConstraint(o: ConstraintObject, alias: string): ConstraintObject {
    o.(key := RenameKey(o.key, alias), tableKey := RenameKey(o.tableKey, alias),
       columns := RenameKeys(o.columns, alias),
       referencedTableKey := RenameOption(o.referencedTableKey, alias),
           referencedColumns := RenameKeys(o.referencedColumns, alias))
  }

  function RenameIndex(o: IndexObject, alias: string): IndexObject {
    o.(key := RenameKey(o.key, alias), tableKey := RenameKey(o.tableKey, alias),
       columns := RenameKeys(o.columns, alias))
  }

  function RenameView(o: ViewObject, alias: string): ViewObject {
    o.(key := RenameKey(o.key, alias), schemaKey := RenameKey(o.schemaKey, alias),
       dependsOn := RenameKeys(o.dependsOn, alias))
  }

  function RenameTrigger(o: TriggerObject, alias: string): TriggerObject {
    o.(key := RenameKey(o.key, alias), tableKey := RenameKey(o.tableKey, alias),
       executesRoutineKey := RenameOption(o.executesRoutineKey, alias))
  }

  function RenameRoutine(o: RoutineObject, alias: string): RoutineObject {
    o.(key := RenameKey(o.key, alias), schemaKey := RenameKey(o.schemaKey, alias),
       dependsOn := RenameKeys(o.dependsOn, alias))
  }

  function RenameMetadata(o: MetadataObject, alias: string): MetadataObject {
    o.(key := RenameKey(o.key, alias), parentKey := RenameOption(o.parentKey, alias))
  }

  function RenameAnnotation(o: ObjectAnnotation, alias: string): ObjectAnnotation {
    o.(objectKey := RenameKey(o.objectKey, alias))
  }

  function RenameRelationship(o: MetadataRelationship, alias: string): MetadataRelationship {
    o.(fromKey := RenameKey(o.fromKey, alias), toKey := RenameKey(o.toKey, alias))
  }

  /** The same snapshot taken under another connection alias. */
  function Renamed(s: CanonicalSchemaSnapshot, alias: string): CanonicalSchemaSnapshot {
    CanonicalSchemaSnapshot(
      s.schema.(connectionAlias := alias,
                database := RenameDatabase(s.schema.database, alias),
                schemas := MapSeq((o: SchemaObject) => RenameSchema(o, alias), s.schema.schemas),
                tables := MapSeq((o: TableObject) => RenameTable(o, alias), s.schema.tables),
                columns := MapSeq((o: ColumnObject) => RenameColumn(o, alias), s.schema.columns),
                constraints := MapSeq((o: ConstraintObject) => RenameConstraint(o, alias), s.schema.constraints),
                indexes := MapSeq((o: IndexObject) => RenameIndex(o, alias), s.schema.indexes),
                views := MapSeq((o: ViewObject) => RenameView(o, alias), s.schema.views),
                triggers := MapSeq((o: TriggerObject) => RenameTrigger(o, alias), s.schema.triggers),
                routines := MapSeq((o: RoutineObject) => RenameRoutine(o, alias), s.schema.routines)),
      CanonicalMetadata(
        MapSeq((o: MetadataObject) => RenameMetadata(o, alias), s.metadata.objects),
        MapSeq((o: ObjectAnnotation) => RenameAnnotation(o, alias), s.metadata.annotations),
        MapSeq((o: MetadataRelationship) => RenameRelationship(o, alias), s.metadata.relationships)))
  }

  // ------------------------------------------------------------------ payloads

  function RenameContent(c: GraphObject, alias: string): GraphObject {
    match c
    case OfDatabase(o) => OfDatabase(RenameDatabase(o, alias))
    case OfSchema(o) => OfSchema(RenameSchema(o, alias))
    case OfTable(o) => OfTable(RenameTable(o, alias))
    case OfColumn(o) => OfColumn(RenameColumn(o, alias))
    case OfConstraint(o) => OfConstraint(RenameConstraint(o, alias))
    case OfIndex(o) => OfIndex(RenameIndex(o, alias))
    case OfView(o) => OfView(RenameView(o, alias))
    case OfTrigger(o) => OfTrigger(RenameTrigger(o, alias))
    case OfRoutine(o) => OfRoutine(RenameRoutine(o, alias))
    case OfMetadata(o) => OfMetadata(RenameMetadata(o, alias))
  }

  function RenamePayload(p: NodePayload, alias: string): NodePayload {
    NodePayload(RenameContent(p.content, alias), match p.annotation case Some(a) => Some(RenameAnnotation(a, alias))
    case None => None)
  }

  lemma KeysErased(keys: seq<ObjectKey>, alias: string)
    ensures EraseKeys(RenameKeys(keys, alias)) == EraseKeys(keys)
  {
    var x, y := EraseKeys(RenameKeys(keys, alias)), EraseKeys(keys);
    forall i | 0 <= i < |keys| ensures x[i] == y[i] { assert x[i] == EraseKey(RenameKey(keys[i], alias)); }
  }

  /** Nothing but aliases is renamed. */
  lemma ContentErased(c: GraphObject, alias: string)
    ensures EraseContent(RenameContent(c, alias)) == EraseContent(c)
            && PropertiesOf(RenameContent(c, alias)) == PropertiesOf(c)
  {
    hide RenameKeys, EraseKeys, EraseProperties;
    match c
    case OfConstraint(o) =>
      KeysErased(o.columns, alias);
      KeysErased(o.referencedColumns, alias);
    case OfIndex(o) => KeysErased(o.columns, alias);
    case OfView(o) => KeysErased(o.dependsOn, alias);
    case OfRoutine(o) => KeysErased(o.dependsOn, alias);
    case _ =>
  }

  /** Renaming the alias changes a payload only in alias fields. */
  lemma PayloadBlind(p: NodePayload, alias: string)
    ensures Strip(PayloadJson(p)) == Strip(PayloadJson(RenamePayload(p, alias)))
  {
    hide PayloadJson, Strip, AliasBlind, EraseContent, RenameContent, PropertiesOf;
    var q := RenamePayload(p, alias);
    ContentErased(p.content, alias);
    PayloadsBlind(p, q);
    StripDecides(PayloadJson(p), PayloadJson(q));
  }

  // ------------------------------------------------------------------- nodes

  function RenameNode(n: PlannedNode, alias: string): PlannedNode {
    PlannedNode(RenameKey(n.key, alias), n.nodeLabel, n.name, RenameContent(n.content, alias))
  }

  lemma PieceRenamed<A>(items: seq<A>, rename: A -> A, node: A -> PlannedNode, alias: string)
    requires forall x :: x in items ==> node(rename(x)) == RenameNode(node(x), alias)
    ensures MapSeq(node, MapSeq(rename, items)) == MapSeq((n: PlannedNode) => RenameNode(n, alias), MapSeq(node, items))
  {
    var p, q := MapSeq(node, MapSeq(rename, items)),
        MapSeq((n: PlannedNode) => RenameNode(n, alias), MapSeq(node, items));
    forall i | 0 <= i < |items| ensures p[i] == q[i] {
      assert MapSeq(rename, items)[i] == rename(items[i]) && MapSeq(node, items)[i] == node(items[i]);
      assert items[i] in items;
    }
  }

  function RenameNodes(nodes: seq<PlannedNode>, alias: string): seq<PlannedNode> {
    MapSeq((n: PlannedNode) => RenameNode(n, alias), nodes)
  }

  lemma NodePiecesRenamed(s: CanonicalSchemaSnapshot, alias: string)
    ensures var t := Renamed(s, alias);
            && MapSeq(SchemaNode, t.schema.schemas) == RenameNodes(MapSeq(SchemaNode, s.schema.schemas), alias)
            && MapSeq(TableNode, t.schema.tables) == RenameNodes(MapSeq(TableNode, s.schema.tables), alias)
            && MapSeq(ColumnNode, t.schema.columns) == RenameNodes(MapSeq(ColumnNode, s.schema.columns), alias)
            && MapSeq(ConstraintNode, t.schema.constraints)
               == RenameNodes(MapSeq(ConstraintNode, s.schema.constraints), alias)
            && MapSeq(IndexNode, t.schema.indexes) == RenameNodes(MapSeq(IndexNode, s.schema.indexes), alias)
            && MapSeq(ViewNode, t.schema.views) == RenameNodes(MapSeq(ViewNode, s.schema.views), alias)
            && MapSeq(TriggerNode, t.schema.triggers) == RenameNodes(MapSeq(TriggerNode, s.schema.triggers), alias)
            && MapSeq(RoutineNode, t.schema.routines) == RenameNodes(MapSeq(RoutineNode, s.schema.routines), alias)
            && MapSeq(MetadataNode, t.metadata.objects) == RenameNodes(MapSeq(MetadataNode, s.metadata.objects), alias)
  {
    PieceRenamed(s.schema.schemas, (o: SchemaObject) => RenameSchema(o, alias), SchemaNode, alias);
    PieceRenamed(s.schema.tables, (o: TableObject) => RenameTable(o, alias), TableNode, alias);
    PieceRenamed(s.schema.columns, (o: ColumnObject) => RenameColumn(o, alias), ColumnNode, alias);
    PieceRenamed(s.schema.constraints, (o: ConstraintObject) => RenameConstraint(o, alias), ConstraintNode, alias);
    PieceRenamed(s.schema.indexes, (o: IndexObject) => RenameIndex(o, alias), IndexNode, alias);
    PieceRenamed(s.schema.views, (o: ViewObject) => RenameView(o, alias), ViewNode, alias);
    PieceRenamed(s.schema.triggers, (o: TriggerObject) => RenameTrigger(o, alias), TriggerNode, alias);
    PieceRenamed(s.schema.routines, (o: RoutineObject) => RenameRoutine(o, alias), RoutineNode, alias);
    PieceRenamed(s.metadata.objects, (o: MetadataObject) => RenameMetadata(o, alias), MetadataNode, alias);
  }

  lemma NodesRenamed(s: CanonicalSchemaSnapshot, alias: string)
    ensures NodesInOrder(Renamed(s, alias)) == RenameNodes(NodesInOrder(s), alias)
  {
    NodePiecesRenamed(s, alias);
    TenJoined((n: PlannedNode) => RenameNode(n, alias), [DatabaseNode(s.schema.database)],
              MapSeq(SchemaNode, s.schema.schemas),
              MapSeq(TableNode, s.schema.tables), MapSeq(ColumnNode, s.schema.columns),
              MapSeq(ConstraintNode, s.schema.constraints),
              MapSeq(IndexNode, s.schema.indexes), MapSeq(ViewNode, s.schema.views),
              MapSeq(TriggerNode, s.schema.triggers),
              MapSeq(RoutineNode, s.schema.routines), MapSeq(MetadataNode, s.metadata.objects));
    assert RenameNodes([DatabaseNode(s.schema.database)], alias)
           == [DatabaseNode(RenameDatabase(s.schema.database, alias))];
  }

  // ------------------------------------------------------------------- edges

  function RenameEdge(e: PlannedEdge, alias: string): PlannedEdge {
    PlannedEdge(e.kind, RenameKey(e.from, alias), RenameKey(e.to, alias),
                match e.relationship case Some(r) => Some(RenameRelationship(r, alias)) case None => None)
  }

  /** The second list holds exactly the renamed edges of the first, in any order. */
  ghost predicate Renames(xs: seq<PlannedEdge>, ys: seq<PlannedEdge>, alias: string) {
    && (forall e :: e in xs ==> RenameEdge(e, alias) in ys)
    && (forall e :: e in ys ==> Origin(xs, e, alias))
  }

  ghost predicate Origin(xs: seq<PlannedEdge>, e: PlannedEdge, alias: string) {
    exists x :: x in xs && RenameEdge(x, alias) == e
  }

  lemma RenamesJoined(a: seq<PlannedEdge>, b: seq<PlannedEdge>, x: seq<PlannedEdge>, y: seq<PlannedEdge>, alias: string)
    requires Renames(a, x, alias) && Renames(b, y, alias)
    ensures Renames(a + b, x + y, alias)
  {
    forall e | e in x + y ensures Origin(a + b, e, alias) {
      if e in x {
        assert Origin(a, e, alias);
        var o :| o in a && RenameEdge(o, alias) == e;
        assert o in a + b;
      } else {
        assert Origin(b, e, alias);
        var o :| o in b && RenameEdge(o, alias) == e;
        assert o in a + b;
      }
    }
  }

  lemma RenamesOne(e: PlannedEdge, alias: string)
    ensures Renames([e], [RenameEdge(e, alias)], alias)
  {
    assert e in [e];
  }

  lemma {:induction false} FlatMapRenames<A>(items: seq<A>, rename: A -> A, f: A -> seq<PlannedEdge>, alias: string)
    requires forall x :: x in items ==> Renames(f(x), f(rename(x)), alias)
    ensures Renames(FlatMap(items, f), FlatMap(MapSeq(rename, items), f), alias)
  {
    if items != [] {
      assert MapSeq(rename, items)[1..] == MapSeq(rename, items[1..]);
      FlatMapRenames(items[1..], rename, f, alias);
      RenamesJoined(f(items[0]), FlatMap(items[1..], f), f(rename(items[0])), FlatMap(MapSeq(rename, items[1..]), f),
                    alias);
    }
  }

  lemma RenamedKeysSorted(keys: seq<ObjectKey>, alias: string)
    ensures forall k ::
              k in StableSort(RenameKeys(keys, alias), ByKey) <==> exists o :: o in keys && RenameKey(o, alias) == k
    ensures forall k :: k in StableSort(keys, ByKey) <==> k in keys
  {
    var renamed := RenameKeys(keys, alias);
    StableSortElements(keys, ByKey, StableSort(keys, ByKey));
    StableSortElements(renamed, ByKey, StableSort(renamed, ByKey));
    forall k ensures k in renamed <==> exists o :: o in keys && RenameKey(o, alias) == k {
      if k in renamed {
        var i :| 0 <= i < |renamed| && renamed[i] == k;
        assert keys[i] in keys && RenameKey(keys[i], alias) == k;
      }
      if o :| o in keys && RenameKey(o, alias) == k {
        var i :| 0 <= i < |keys| && keys[i] == o;
        assert renamed[i] == k;
      }
    }
  }

  /** Edges made from a list of keys, one by one or none. */
  lemma KeyEdgesRename(keys: seq<ObjectKey>, alias: string, f: ObjectKey -> seq<PlannedEdge>,
                       g: ObjectKey -> seq<PlannedEdge>)
    requires forall k :: k in keys ==> Renames(f(k), g(RenameKey(k, alias)), alias)
    ensures Renames(FlatMap(StableSort(keys, ByKey), f), FlatMap(StableSort(RenameKeys(keys, alias), ByKey), g), alias)
  {
    RenamedKeysSorted(keys, alias);
    var xs, ys := StableSort(keys, ByKey), StableSort(RenameKeys(keys, alias), ByKey);
    forall e | e in FlatMap(xs, f) ensures RenameEdge(e, alias) in FlatMap(ys, g) {
      var k := FlatMapFrom(xs, f, e);
      FlatMapInto(ys, g, RenameKey(k, alias), RenameEdge(e, alias));
    }
    forall e | e in FlatMap(ys, g) ensures Origin(FlatMap(xs, f), e, alias) {
      var k := FlatMapFrom(ys, g, e);
      var o :| o in keys && RenameKey(o, alias) == k;
      assert Origin(f(o), e, alias);
      var x :| x in f(o) && RenameEdge(x, alias) == e;
      FlatMapInto(xs, f, o, x);
    }
  }

  lemma IntoIsFlat(kind: EdgeKind, keys: seq<ObjectKey>, key: ObjectKey)
    ensures EdgesInto(kind, keys, key) == FlatMap(StableSort(keys, ByKey), k => [Plain(kind, k, key)])
    ensures EdgesOutOf(kind, key, keys) == FlatMap(StableSort(keys, ByKey), k => [Plain(kind, key, k)])
  {
    SinglesAreMapped(StableSort(keys, ByKey), (k: ObjectKey) => Plain(kind, k, key), k => [Plain(kind, k, key)]);
    SinglesAreMapped(StableSort(keys, ByKey), (k: ObjectKey) => Plain(kind, key, k), k => [Plain(kind, key, k)]);
  }

  lemma {:induction false} SinglesAreMapped(keys: seq<ObjectKey>, f: ObjectKey -> PlannedEdge,
                                            g: ObjectKey -> seq<PlannedEdge>)
    requires forall k :: g(k) == [f(k)]
    ensures MapSeq(f, keys) == FlatMap(keys, g)
  {
    if keys != [] {
      SinglesAreMapped(keys[1..], f, g);
      assert MapSeq(f, keys) == [f(keys[0])] + MapSeq(f, keys[1..]);
    }
  }

  lemma SortedEdgesRename(kind: EdgeKind, keys: seq<ObjectKey>, key: ObjectKey, alias: string)
    ensures Renames(EdgesInto(kind, keys, key), EdgesInto(kind, RenameKeys(keys, alias), RenameKey(key, alias)), alias)
    ensures Renames(EdgesOutOf(kind, key, keys), EdgesOutOf(kind, RenameKey(key, alias), RenameKeys(keys, alias)),
                    alias)
  {
    var other := RenameKey(key, alias);
    IntoIsFlat(kind, keys, key);
    IntoIsFlat(kind, RenameKeys(keys, alias), other);
    forall k ensures Renames([Plain(kind, k, key)], [Plain(kind, RenameKey(k, alias), other)], alias) {
      RenamesOne(Plain(kind, k, key), alias);
    }
    KeyEdgesRename(keys, alias, k => [Plain(kind, k, key)], k => [Plain(kind, k, other)]);
    forall k ensures Renames([Plain(kind, key, k)], [Plain(kind, other, RenameKey(k, alias))], alias) {
      RenamesOne(Plain(kind, key, k), alias);
    }
    KeyEdgesRename(keys, alias, k => [Plain(kind, key, k)], k => [Plain(kind, other, k)]);
  }

  lemma ConstraintColumnsRename(c: ConstraintObject, alias: string)
    ensures Renames(ConstraintColumnEdges(c), ConstraintColumnEdges(RenameConstraint(c, alias)), alias)
  {
    match c.kind
    case PrimaryKeyRule => SortedEdgesRename(InPrimaryKey, c.columns, c.key, alias);
    case UniqueRule => SortedEdgesRename(InUnique, c.columns, c.key, alias);
    case CheckRule => SortedEdgesRename(InCheck, c.columns, c.key, alias);
    case ForeignKeyRule =>
      SortedEdgesRename(FromColumn, c.columns, c.key, alias);
      SortedEdgesRename(ToColumn, c.referencedColumns, c.key, alias);
      var d := RenameConstraint(c, alias);
      RenamesJoined(EdgesInto(FromColumn, c.columns, c.key), EdgesOutOf(ToColumn, c.key, c.referencedColumns),
                    EdgesInto(FromColumn, d.columns, d.key), EdgesOutOf(ToColumn, d.key, d.referencedColumns), alias);
  }

  lemma ConstraintRenames(c: ConstraintObject, alias: string)
    ensures Renames(ConstraintEdges(c), ConstraintEdges(RenameConstraint(c, alias)), alias)
  {
    var d := RenameConstraint(c, alias);
    ConstraintColumnsRename(c, alias);
    RenamesOne(Plain(HasConstraint, c.tableKey, c.key), alias);
    RenamesJoined([Plain(HasConstraint, c.tableKey, c.key)], ConstraintColumnEdges(c),
                  [Plain(HasConstraint, d.tableKey, d.key)], ConstraintColumnEdges(d), alias);
  }

  lemma IndexRenames(i: IndexObject, alias: string)
    ensures Renames(IndexEdges(i), IndexEdges(RenameIndex(i, alias)), alias)
  {
    var d := RenameIndex(i, alias);
    SortedEdgesRename(InIndex, i.columns, i.key, alias);
    RenamesOne(Plain(HasIndex, i.tableKey, i.key), alias);
    RenamesJoined([Plain(HasIndex, i.tableKey, i.key)], EdgesInto(InIndex, i.columns, i.key),
                  [Plain(HasIndex, d.tableKey, d.key)], EdgesInto(InIndex, d.columns, d.key), alias);
  }

  lemma ViewRenames(v: ViewObject, alias: string)
    ensures Renames(ViewEdges(v), ViewEdges(RenameView(v, alias)), alias)
  {
    var d := RenameView(v, alias);
    var f, g := k => ViewDependencyEdges(v.key, k), k => ViewDependencyEdges(d.key, k);
    forall k ensures Renames(f(k), g(RenameKey(k, alias)), alias) {
      if k.objectKind == Table { RenamesOne(Plain(ViewOnTable, v.key, k), alias); }
      if k.objectKind == Column { RenamesOne(Plain(ViewOnColumn, v.key, k), alias); }
      if k.objectKind == View { RenamesOne(Plain(ViewOnView, v.key, k), alias); }
    }
    KeyEdgesRename(v.dependsOn, alias, f, g);
    RenamesOne(Plain(HasView, v.schemaKey, v.key), alias);
    RenamesJoined([Plain(HasView, v.schemaKey, v.key)], FlatMap(StableSort(v.dependsOn, ByKey), f),
                  [Plain(HasView, d.schemaKey, d.key)], FlatMap(StableSort(d.dependsOn, ByKey), g), alias);
  }

  lemma RoutineRenames(r: RoutineObject, alias: string)
    ensures Renames(RoutineEdges(r), RoutineEdges(RenameRoutine(r, alias)), alias)
  {
    var d := RenameRoutine(r, alias);
    var f, g := k => RoutineDependencyEdges(r.key, k), k => RoutineDependencyEdges(d.key, k);
    forall k ensures Renames(f(k), g(RenameKey(k, alias)), alias) {
      if k.objectKind == Table { RenamesOne(Plain(RoutineOnTable, r.key, k), alias); }
      if k.objectKind == Column { RenamesOne(Plain(RoutineOnColumn, r.key, k), alias); }
    }
    KeyEdgesRename(r.dependsOn, alias, f, g);
    RenamesOne(Plain(HasRoutine, r.schemaKey, r.key), alias);
    RenamesJoined([Plain(HasRoutine, r.schemaKey, r.key)], FlatMap(StableSort(r.dependsOn, ByKey), f),
                  [Plain(HasRoutine, d.schemaKey, d.key)], FlatMap(StableSort(d.dependsOn, ByKey), g), alias);
  }

  lemma ListRenames(xs: seq<PlannedEdge>, ys: seq<PlannedEdge>, alias: string)
    requires |xs| == |ys| && forall i :: 0 <= i < |xs| ==> ys[i] == RenameEdge(xs[i], alias)
    ensures Renames(xs, ys, alias)
  {
    forall i | 0 <= i < |xs| ensures RenameEdge(xs[i], alias) in ys { assert ys[i] in ys; }
    forall i | 0 <= i < |ys| ensures Origin(xs, ys[i], alias) { assert xs[i] in xs; }
  }

  lemma SchemasRename(items: seq<SchemaObject>, alias: string)
    ensures Renames(FlatMap(items, SchemaEdges), FlatMap(MapSeq((o: SchemaObject) => RenameSchema(o, alias), items),
                                                         SchemaEdges), alias)
  {
    forall o | o in items ensures Renames(SchemaEdges(o), SchemaEdges(RenameSchema(o, alias)), alias) {
      ListRenames(SchemaEdges(o), SchemaEdges(RenameSchema(o, alias)), alias);
    }
    FlatMapRenames(items, (o: SchemaObject) => RenameSchema(o, alias), SchemaEdges, alias);
  }

  lemma TablesRename(items: seq<TableObject>, alias: string)
    ensures Renames(FlatMap(items, TableEdges), FlatMap(MapSeq((o: TableObject) => RenameTable(o, alias), items),
                                                        TableEdges), alias)
  {
    forall o | o in items ensures Renames(TableEdges(o), TableEdges(RenameTable(o, alias)), alias) {
      ListRenames(TableEdges(o), TableEdges(RenameTable(o, alias)), alias);
    }
    FlatMapRenames(items, (o: TableObject) => RenameTable(o, alias), TableEdges, alias);
  }

  lemma ColumnsRename(items: seq<ColumnObject>, alias: string)
    ensures Renames(FlatMap(items, ColumnEdges), FlatMap(MapSeq((o: ColumnObject) => RenameColumn(o, alias), items),
                                                         ColumnEdges), alias)
  {
    forall o | o in items ensures Renames(ColumnEdges(o), ColumnEdges(RenameColumn(o, alias)), alias) {
      ListRenames(ColumnEdges(o), ColumnEdges(RenameColumn(o, alias)), alias);
    }
    FlatMapRenames(items, (o: ColumnObject) => RenameColumn(o, alias), ColumnEdges, alias);
  }

  lemma TriggersRename(items: seq<TriggerObject>, alias: string)
    ensures Renames(FlatMap(items, TriggerEdges),
                    FlatMap(MapSeq((o: TriggerObject) => RenameTrigger(o, alias), items), TriggerEdges), alias)
  {
    forall o | o in items ensures Renames(TriggerEdges(o), TriggerEdges(RenameTrigger(o, alias)), alias) {
      ListRenames(TriggerEdges(o), TriggerEdges(RenameTrigger(o, alias)), alias);
    }
    FlatMapRenames(items, (o: TriggerObject) => RenameTrigger(o, alias), TriggerEdges, alias);
  }

  lemma OwnersRename(s: SchemaSnapshot, t: SchemaSnapshot, alias: string)
    requires t == Renamed(CanonicalSchemaSnapshot(s, NoMetadata), alias).schema
    ensures Renames(FlatMap(s.schemas, SchemaEdges), FlatMap(t.schemas, SchemaEdges), alias)
    ensures Renames(FlatMap(s.tables, TableEdges), FlatMap(t.tables, TableEdges), alias)
    ensures Renames(FlatMap(s.columns, ColumnEdges), FlatMap(t.columns, ColumnEdges), alias)
    ensures Renames(FlatMap(s.triggers, TriggerEdges), FlatMap(t.triggers, TriggerEdges), alias)
  {
    SchemasRename(s.schemas, alias);
    TablesRename(s.tables, alias);
    ColumnsRename(s.columns, alias);
    TriggersRename(s.triggers, alias);
  }

  lemma DependentsRename(s: SchemaSnapshot, t: SchemaSnapshot, alias: string)
    requires t == Renamed(CanonicalSchemaSnapshot(s, NoMetadata), alias).schema
    ensures Renames(FlatMap(s.constraints, ConstraintEdges), FlatMap(t.constraints, ConstraintEdges), alias)
    ensures Renames(FlatMap(s.indexes, IndexEdges), FlatMap(t.indexes, IndexEdges), alias)
    ensures Renames(FlatMap(s.views, ViewEdges), FlatMap(t.views, ViewEdges), alias)
    ensures Renames(FlatMap(s.routines, RoutineEdges), FlatMap(t.routines, RoutineEdges), alias)
  {
    forall o | o in s.constraints
      ensures Renames(ConstraintEdges(o), ConstraintEdges(RenameConstraint(o, alias)), alias)
    {
      ConstraintRenames(o, alias);
    }
    FlatMapRenames(s.constraints, (o: ConstraintObject) => RenameConstraint(o, alias), ConstraintEdges, alias);
    forall o | o in s.indexes ensures Renames(IndexEdges(o), IndexEdges(RenameIndex(o, alias)), alias) {
      IndexRenames(o, alias);
    }
    FlatMapRenames(s.indexes, (o: IndexObject) => RenameIndex(o, alias), IndexEdges, alias);
    forall o | o in s.views ensures Renames(ViewEdges(o), ViewEdges(RenameView(o, alias)), alias) {
      ViewRenames(o, alias);
    }
    FlatMapRenames(s.views, (o: ViewObject) => RenameView(o, alias), ViewEdges, alias);
    forall o | o in s.routines ensures Renames(RoutineEdges(o), RoutineEdges(RenameRoutine(o, alias)), alias) {
      RoutineRenames(o, alias);
    }
    FlatMapRenames(s.routines, (o: RoutineObject) => RenameRoutine(o, alias), RoutineEdges, alias);
  }

  lemma EightRename(a: seq<PlannedEdge>, b: seq<PlannedEdge>, c: seq<PlannedEdge>, d: seq<PlannedEdge>,
                    e: seq<PlannedEdge>, f: seq<PlannedEdge>,
                    g: seq<PlannedEdge>, h: seq<PlannedEdge>, a1: seq<PlannedEdge>, b1: seq<PlannedEdge>,
                    c1: seq<PlannedEdge>, d1: seq<PlannedEdge>,
                    e1: seq<PlannedEdge>, f1: seq<PlannedEdge>, g1: seq<PlannedEdge>, h1: seq<PlannedEdge>,
                    alias: string)
    requires Renames(a, a1, alias) && Renames(b, b1, alias) && Renames(c, c1, alias) && Renames(d, d1, alias)
    requires Renames(e, e1, alias) && Renames(f, f1, alias) && Renames(g, g1, alias) && Renames(h, h1, alias)
    ensures Renames(a + b + c + d + e + f + g + h, a1 + b1 + c1 + d1 + e1 + f1 + g1 + h1, alias)
  {
    RenamesJoined(a, b, a1, b1, alias);
    RenamesJoined(a + b, c, a1 + b1, c1, alias);
    RenamesJoined(a + b + c, d, a1 + b1 + c1, d1, alias);
    RenamesJoined(a + b + c + d, e, a1 + b1 + c1 + d1, e1, alias);
    RenamesJoined(a + b + c + d + e, f, a1 + b1 + c1 + d1 + e1, f1, alias);
    RenamesJoined(a + b + c + d + e + f, g, a1 + b1 + c1 + d1 + e1 + f1, g1, alias);
    RenamesJoined(a + b + c + d + e + f + g, h, a1 + b1 + c1 + d1 + e1 + f1 + g1, h1, alias);
  }

  lemma TypedEdgesRename(s: SchemaSnapshot, t: SchemaSnapshot, alias: string)
    requires t == Renamed(CanonicalSchemaSnapshot(s, NoMetadata), alias).schema
    ensures Renames(TypedEdges(s), TypedEdges(t), alias)
  {
    OwnersRename(s, t, alias);
    DependentsRename(s, t, alias);
    EightRename(FlatMap(s.schemas, SchemaEdges), FlatMap(s.tables, TableEdges), FlatMap(s.columns, ColumnEdges),
                FlatMap(s.constraints, ConstraintEdges), FlatMap(s.indexes, IndexEdges), FlatMap(s.views, ViewEdges),
                FlatMap(s.triggers, TriggerEdges), FlatMap(s.routines, RoutineEdges),
                FlatMap(t.schemas, SchemaEdges), FlatMap(t.tables, TableEdges), FlatMap(t.columns, ColumnEdges),
                FlatMap(t.constraints, ConstraintEdges), FlatMap(t.indexes, IndexEdges), FlatMap(t.views, ViewEdges),
                FlatMap(t.triggers, TriggerEdges), FlatMap(t.routines, RoutineEdges), alias);
  }

  lemma MetadataEdgesRename(m: CanonicalMetadata, alias: string)
    ensures var n := CanonicalMetadata(MapSeq((o: MetadataObject) => RenameMetadata(o, alias), m.objects),
                                       m.annotations,
                                       MapSeq((o: MetadataRelationship) => RenameRelationship(o, alias),
                                              m.relationships));
            Renames(MetadataEdges(m), MetadataEdges(n), alias)
  {
    var objects := MapSeq((o: MetadataObject) => RenameMetadata(o, alias), m.objects);
    var relationships := MapSeq((o: MetadataRelationship) => RenameRelationship(o, alias), m.relationships);
    forall o | o in m.objects ensures Renames(ParentEdges(o), ParentEdges(RenameMetadata(o, alias)), alias) {
      ListRenames(ParentEdges(o), ParentEdges(RenameMetadata(o, alias)), alias);
    }
    FlatMapRenames(m.objects, (o: MetadataObject) => RenameMetadata(o, alias), ParentEdges, alias);
    var xs, ys := MapSeq(RelationshipEdge, m.relationships), MapSeq(RelationshipEdge, relationships);
    forall i | 0 <= i < |xs| ensures ys[i] == RenameEdge(xs[i], alias) {
      assert relationships[i] == RenameRelationship(m.relationships[i], alias);
      assert ys[i] == RelationshipEdge(relationships[i]) && xs[i] == RelationshipEdge(m.relationships[i]);
    }
    ListRenames(xs, ys, alias);
    RenamesJoined(FlatMap(m.objects, ParentEdges), xs, FlatMap(objects, ParentEdges), ys, alias);
  }

  /** Renaming the alias renames the planned edges, and adds or loses none. */
  lemma EdgesRename(s: CanonicalSchemaSnapshot, alias: string)
    ensures Renames(EdgesInOrder(s), EdgesInOrder(Renamed(s, alias)), alias)
  {
    TypedEdgesRename(s.schema, Renamed(s, alias).schema, alias);
    MetadataEdgesRename(s.metadata, alias);
    RenamesJoined(TypedEdges(s.schema), MetadataEdges(s.metadata), TypedEdges(Renamed(s, alias).schema),
                  MetadataEdges(Renamed(s, alias).metadata), alias);
  }
}
