/** What makes a schema snapshot well formed, stated on the keys themselves. */
module SnapshotRules {
  import opened Wrappers
  import opened Lists
  import opened ObjectKeys
  import opened SchemaModel
  import opened TextRules

  const MAX_METADATA_TEXT_BYTES: nat := 1_048_576

  function ConstraintObjectKind(kind: ConstraintKind): ObjectKind {
    match kind
    case PrimaryKeyRule => PrimaryKey
    case ForeignKeyRule => ForeignKey
    case UniqueRule => UniqueConstraint
    case CheckRule => CheckConstraint
  }

  // -------------------------------------------------------------- the objects

  /** A key and the kind its collection calls for. */
  datatype Entry = Entry(key: ObjectKey, kind: ObjectKind)

  function SchemaEntries(objects: seq<SchemaObject>): (r: seq<Entry>) ensures |r| == |objects| {
    seq(|objects|, i requires 0 <= i < |objects| => Entry(objects[i].key, Schema))
  }

  function TableEntries(objects: seq<TableObject>): (r: seq<Entry>) ensures |r| == |objects| {
    seq(|objects|, i requires 0 <= i < |objects| => Entry(objects[i].key, Table))
  }

  function ColumnEntries(objects: seq<ColumnObject>): (r: seq<Entry>) ensures |r| == |objects| {
    seq(|objects|, i requires 0 <= i < |objects| => Entry(objects[i].key, Column))
  }

  function ConstraintEntries(objects: seq<ConstraintObject>): (r: seq<Entry>) ensures |r| == |objects| {
    seq(|objects|, i requires 0 <= i < |objects| => Entry(objects[i].key, ConstraintObjectKind(objects[i].kind)))
  }

  function IndexEntries(objects: seq<IndexObject>): (r: seq<Entry>) ensures |r| == |objects| {
    seq(|objects|, i requires 0 <= i < |objects| => Entry(objects[i].key, Index))
  }

  function ViewEntries(objects: seq<ViewObject>): (r: seq<Entry>) ensures |r| == |objects| {
    seq(|objects|, i requires 0 <= i < |objects| => Entry(objects[i].key, View))
  }

  function TriggerEntries(objects: seq<TriggerObject>): (r: seq<Entry>) ensures |r| == |objects| {
    seq(|objects|, i requires 0 <= i < |objects| => Entry(objects[i].key, Trigger))
  }

  function RoutineEntries(objects: seq<RoutineObject>): (r: seq<Entry>) ensures |r| == |objects| {
    seq(|objects|, i requires 0 <= i < |objects| => Entry(objects[i].key, Routine))
  }

  /** All objects of a snapshot in the order they are registered. */
  function Entries(s: SchemaSnapshot): seq<Entry> {
    [Entry(s.database.key, Database)]
    + SchemaEntries(s.schemas) + TableEntries(s.tables) + ColumnEntries(s.columns) + ConstraintEntries(s.constraints)
    + IndexEntries(s.indexes) + ViewEntries(s.views) + TriggerEntries(s.triggers) + RoutineEntries(s.routines)
  }

  function KeysOf(entries: seq<Entry>): (r: seq<ObjectKey>)
    ensures |r| == |entries|
  {
    seq(|entries|, i requires 0 <= i < |entries| => entries[i].key)
  }

  function KnownKeys(entries: seq<Entry>): set<ObjectKey> { set e | e in entries :: e.key }

  // ---------------------------------------------------------------- the rules

  predicate Identified(key: ObjectKey, alias: string, objectName: string, subObject: Option<string>) {
    key.connectionAlias == alias && key.objectName == objectName && key.subObject == subObject
  }

  predicate ChildOf(child: ObjectKey, parent: ObjectKey) {
    child.database == parent.database && child.schema == parent.schema
  }

  predicate OneOf(known: set<ObjectKey>, target: ObjectKey, kinds: set<ObjectKind>) {
    target in known && target.objectKind in kinds
  }

  predicate ColumnOf(known: set<ObjectKey>, column: ObjectKey, table: ObjectKey) {
    && OneOf(known, column, {Column})
    && column.database == table.database && column.schema == table.schema && column.objectName == table.objectName
  }

  predicate ColumnsOf(known: set<ObjectKey>, columns: seq<ObjectKey>, table: ObjectKey) {
    forall c :: c in columns ==> ColumnOf(known, c, table)
  }

  /** Every registered key lies in the one source, alias and database of the snapshot. */
  predicate InScope(key: ObjectKey, alias: string, database: ObjectKey) {
    && key.connectionAlias == alias
    && !Blank(key.sourceKind) && !Blank(key.database) && !Blank(key.schema) && !Blank(key.objectName)
    && key.sourceKind == database.sourceKind && key.database == database.database
  }

  predicate DatabaseOk(alias: string, d: DatabaseObject) {
    Identified(d.key, alias, d.name, None) && d.key.database == d.name
  }

  predicate SchemaOk(known: set<ObjectKey>, alias: string, o: SchemaObject) {
    OneOf(known, o.databaseKey, {Database}) && Identified(o.key, alias, o.name, None) && o.key.schema == o.name
  }

  predicate TableOk(known: set<ObjectKey>, alias: string, t: TableObject) {
    && OneOf(known, t.schemaKey, {Schema}) && Identified(t.key, alias, t.name, None)
    && (t.kind == Temporary ==> t.key.schema != [])
  }

  predicate ColumnOk(known: set<ObjectKey>, alias: string, c: ColumnObject) {
    && OneOf(known, c.tableKey, {Table}) && ChildOf(c.key, c.tableKey)
    && Identified(c.key, alias, c.tableKey.objectName, Some(c.name))
    && c.ordinalPosition != 0 && Fits(c.defaultValue, MAX_METADATA_TEXT_BYTES)
  }

  predicate ConstraintKindOk(known: set<ObjectKey>, c: ConstraintObject) {
    match c.kind
    case PrimaryKeyRule => c.columns != [] && c.referencedTableKey == None && c.referencedColumns == []
    case UniqueRule => c.columns != [] && c.referencedTableKey == None && c.referencedColumns == []
    case ForeignKeyRule =>
      && c.columns != [] && |c.columns| == |c.referencedColumns|
      && c.referencedTableKey.Some?
      && OneOf(known, c.referencedTableKey.value, {Table})
      && ColumnsOf(known, c.referencedColumns, c.referencedTableKey.value)
    case CheckRule => !NoneOrBlank(c.expression)
  }

  predicate ConstraintOk(known: set<ObjectKey>, alias: string, c: ConstraintObject) {
    && OneOf(known, c.tableKey, {Table}) && ChildOf(c.key, c.tableKey)
    && Identified(c.key, alias, c.tableKey.objectName, Some(c.name))
    && ColumnsOf(known, c.columns, c.tableKey)
    && NoDuplicates(c.columns) && NoDuplicates(c.referencedColumns)
    && Fits(c.expression, MAX_METADATA_TEXT_BYTES)
    && ConstraintKindOk(known, c)
  }

  predicate IndexOk(known: set<ObjectKey>, alias: string, i: IndexObject) {
    && OneOf(known, i.tableKey, {Table}) && ChildOf(i.key, i.tableKey)
    && Identified(i.key, alias, i.tableKey.objectName, Some(i.name))
    && ColumnsOf(known, i.columns, i.tableKey) && NoDuplicates(i.columns)
    && !(i.columns == [] && NoneOrBlank(i.expression))
    && Fits(i.filter, MAX_METADATA_TEXT_BYTES) && Fits(i.expression, MAX_METADATA_TEXT_BYTES)
  }

  predicate DependenciesOk(known: set<ObjectKey>, dependsOn: seq<ObjectKey>) {
    (forall d :: d in dependsOn ==> d in known) && NoDuplicates(dependsOn)
  }

  predicate ViewOk(known: set<ObjectKey>, alias: string, v: ViewObject) {
    && OneOf(known, v.schemaKey, {Schema}) && Identified(v.key, alias, v.name, None)
    && DependenciesOk(known, v.dependsOn) && Fits(v.definition, MAX_METADATA_TEXT_BYTES)
  }

  predicate TriggerOk(known: set<ObjectKey>, alias: string, t: TriggerObject) {
    && OneOf(known, t.tableKey, {Table, View}) && ChildOf(t.key, t.tableKey)
    && Identified(t.key, alias, t.tableKey.objectName, Some(t.name))
    && t.events != [] && NoDuplicates(t.events) && Fits(t.definition, MAX_METADATA_TEXT_BYTES)
    && (t.executesRoutineKey.Some? ==> OneOf(known, t.executesRoutineKey.value, {Routine}))
  }

  predicate RoutineOk(known: set<ObjectKey>, alias: string, r: RoutineObject) {
    && OneOf(known, r.schemaKey, {Schema}) && Identified(r.key, alias, r.name, r.key.subObject)
    && DependenciesOk(known, r.dependsOn) && Fits(r.definition, MAX_METADATA_TEXT_BYTES)
  }

  predicate HeaderOk(s: SchemaSnapshot) {
    !Blank(s.sourceKind) && !Blank(s.connectionAlias) && s.capabilities.sourceKind == s.sourceKind
  }

  /** Every key is of its collection's kind, none occurs twice, all lie in the snapshot's scope. */
  predicate EntriesOk(s: SchemaSnapshot) {
    && (forall e :: e in Entries(s) ==> e.key.objectKind == e.kind && InScope(e.key, s.connectionAlias, s.database.key))
    && NoDuplicates(KeysOf(Entries(s)))
  }

  function Ordinals(columns: seq<ColumnObject>): (r: seq<(ObjectKey, nat)>)
    ensures |r| == |columns|
  {
    seq(|columns|, i requires 0 <= i < |columns| => (columns[i].tableKey, columns[i].ordinalPosition))
  }

  predicate ObjectsOk(s: SchemaSnapshot, known: set<ObjectKey>) {
    var alias := s.connectionAlias;
    && DatabaseOk(alias, s.database)
    && (forall o :: o in s.schemas ==> SchemaOk(known, alias, o))
    && (forall o :: o in s.tables ==> TableOk(known, alias, o))
    && (forall o :: o in s.columns ==> ColumnOk(known, alias, o))
    && (forall o :: o in s.constraints ==> ConstraintOk(known, alias, o))
    && (forall o :: o in s.indexes ==> IndexOk(known, alias, o))
    && (forall o :: o in s.views ==> ViewOk(known, alias, o))
    && (forall o :: o in s.triggers ==> TriggerOk(known, alias, o))
    && (forall o :: o in s.routines ==> RoutineOk(known, alias, o))
  }

  /** The snapshots the validator is meant to accept. */
  predicate WellFormed(s: SchemaSnapshot) {
    HeaderOk(s) && EntriesOk(s) && NoDuplicates(Ordinals(s.columns)) && ObjectsOk(s, KnownKeys(Entries(s)))
  }

  // ----------------------------------------------------- order does not matter

  /** The same snapshot with its collections listed in any other order. */
  ghost predicate Reordered(a: SchemaSnapshot, b: SchemaSnapshot) {
    && a == b.(schemas := a.schemas, tables := a.tables, columns := a.columns, constraints := a.constraints,
               indexes := a.indexes, views := a.views, triggers := a.triggers, routines := a.routines)
    && multiset(a.schemas) == multiset(b.schemas) && multiset(a.tables) == multiset(b.tables)
    && multiset(a.columns) == multiset(b.columns) && multiset(a.constraints) == multiset(b.constraints)
    && multiset(a.indexes) == multiset(b.indexes) && multiset(a.views) == multiset(b.views)
    && multiset(a.triggers) == multiset(b.triggers) && multiset(a.routines) == multiset(b.routines)
  }

  lemma EntriesPermuted(a: SchemaSnapshot, b: SchemaSnapshot)
    requires Reordered(a, b)
    ensures multiset(Entries(a)) == multiset(Entries(b))
  {
    MapPermuted((o: SchemaObject) => Entry(o.key, Schema), a.schemas, b.schemas, SchemaEntries(a.schemas),
                SchemaEntries(b.schemas));
    MapPermuted((o: TableObject) => Entry(o.key, Table), a.tables, b.tables, TableEntries(a.tables),
                TableEntries(b.tables));
    MapPermuted((o: ColumnObject) => Entry(o.key, Column), a.columns, b.columns, ColumnEntries(a.columns),
                ColumnEntries(b.columns));
    MapPermuted((o: ConstraintObject) => Entry(o.key, ConstraintObjectKind(o.kind)), a.constraints, b.constraints,
                ConstraintEntries(a.constraints), ConstraintEntries(b.constraints));
    MapPermuted((o: IndexObject) => Entry(o.key, Index), a.indexes, b.indexes, IndexEntries(a.indexes),
                IndexEntries(b.indexes));
    MapPermuted((o: ViewObject) => Entry(o.key, View), a.views, b.views, ViewEntries(a.views), ViewEntries(b.views));
    MapPermuted((o: TriggerObject) => Entry(o.key, Trigger), a.triggers, b.triggers, TriggerEntries(a.triggers),
                TriggerEntries(b.triggers));
    MapPermuted((o: RoutineObject) => Entry(o.key, Routine), a.routines, b.routines, RoutineEntries(a.routines),
                RoutineEntries(b.routines));
  }

  lemma EntriesOkPermuted(a: SchemaSnapshot, b: SchemaSnapshot)
    requires Reordered(a, b)
    ensures EntriesOk(a) <==> EntriesOk(b)
    ensures KnownKeys(Entries(a)) == KnownKeys(Entries(b))
  {
    EntriesPermuted(a, b);
    SameElements(Entries(a), Entries(b));
    MapPermuted((e: Entry) => e.key, Entries(a), Entries(b), KeysOf(Entries(a)), KeysOf(Entries(b)));
    NoDuplicatesPermuted(KeysOf(Entries(a)), KeysOf(Entries(b)));
  }

  lemma ObjectsOkPermuted(a: SchemaSnapshot, b: SchemaSnapshot, known: set<ObjectKey>)
    requires Reordered(a, b)
    ensures ObjectsOk(a, known) <==> ObjectsOk(b, known)
  {
    SameElements(a.schemas, b.schemas);
    SameElements(a.tables, b.tables);
    SameElements(a.columns, b.columns);
    SameElements(a.constraints, b.constraints);
    SameElements(a.indexes, b.indexes);
    SameElements(a.views, b.views);
    SameElements(a.triggers, b.triggers);
    SameElements(a.routines, b.routines);
  }

  /** Well-formedness does not depend on the order of any collection. */
  lemma WellFormedReordered(a: SchemaSnapshot, b: SchemaSnapshot)
    requires Reordered(a, b)
    ensures WellFormed(a) <==> WellFormed(b)
  {
    EntriesOkPermuted(a, b);
    MapPermuted((c: ColumnObject) => (c.tableKey, c.ordinalPosition), a.columns, b.columns, Ordinals(a.columns),
                Ordinals(b.columns));
    NoDuplicatesPermuted(Ordinals(a.columns), Ordinals(b.columns));
    ObjectsOkPermuted(a, b, KnownKeys(Entries(a)));
  }
}
