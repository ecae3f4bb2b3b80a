/** What the nodes of a stored graph say: one node for each object, with its label, its name, the object itself
    and its annotation (graph_builder.rs). */
module StoredObjects {
  import opened Wrappers
  import opened Lists
  import opened Ordering
  import opened ObjectKeys
  import opened SchemaModel
  import opened SnapshotRules
  import opened CanonicalRules
  import opened Canonical
  import opened Certification
  import opened GraphModel
  import opened Projection
  import opened GraphBuilder
  import opened AliasDiff
  import opened StoredRelations

  /** The label of an object's node: what it is, and for a metadata object of a kind that typed objects have
      only that it is one. */
  ghost predicate Labelled(content: GraphObject, name: string) {
    match content
    case OfDatabase(_) => name == "Database"
    case OfSchema(_) => name == "Schema"
    case OfTable(_) => name == "Table"
    case OfColumn(_) => name == "Column"
    case OfConstraint(o) => ConstraintLabelled(o.kind, name)
    case OfIndex(_) => name == "Index"
    case OfView(_) => name == "View"
    case OfTrigger(_) => name == "Trigger"
    case OfRoutine(_) => name == "Routine"
    case OfMetadata(o) => MetadataLabelled(o.key.objectKind, name)
  }

  ghost predicate ConstraintLabelled(kind: ConstraintKind, name: string) {
    && (kind == PrimaryKeyRule ==> name == "PrimaryKey") && (kind == ForeignKeyRule ==> name == "ForeignKey")
    && (kind == UniqueRule ==> name == "UniqueConstraint") && (kind == CheckRule ==> name == "CheckConstraint")
  }

  ghost predicate MetadataLabelled(kind: ObjectKind, name: string) {
    match kind
    case MaterializedView => name == "MaterializedView"
    case ViewColumn => name == "ViewColumn"
    case Sequence => name == "Sequence"
    case RoutineParameter => name == "RoutineParameter"
    case UserDefinedType => name == "UserDefinedType"
    case Domain => name == "Domain"
    case EnumValue => name == "EnumValue"
    case Synonym => name == "Synonym"
    case ExclusionConstraint => name == "ExclusionConstraint"
    case Event => name == "Event"
    case Package => name == "Package"
    case Principal => name == "Principal"
    case Policy => name == "Policy"
    case Extension => name == "Extension"
    case _ => name == "MetadataObject"
  }

  function KeyOf(content: GraphObject): ObjectKey {
    match content
    case OfDatabase(o) => o.key case OfSchema(o) => o.key case OfTable(o) => o.key case OfColumn(o) => o.key
    case OfConstraint(o) => o.key case OfIndex(o) => o.key case OfView(o) => o.key case OfTrigger(o) => o.key
    case OfRoutine(o) => o.key case OfMetadata(o) => o.key
  }

  function NameOf(content: GraphObject): string {
    match content
    case OfDatabase(o) => o.name case OfSchema(o) => o.name case OfTable(o) => o.name case OfColumn(o) => o.name
    case OfConstraint(o) => o.name case OfIndex(o) => o.name case OfView(o) => o.name case OfTrigger(o) => o.name
    case OfRoutine(o) => o.name case OfMetadata(o) => o.name
  }

  /** The object is one of the snapshot. */
  ghost predicate Holds(s: CanonicalSchemaSnapshot, content: GraphObject) {
    match content
    case OfDatabase(o) => o == s.schema.database
    case OfSchema(o) => o in s.schema.schemas
    case OfTable(o) => o in s.schema.tables
    case OfColumn(o) => o in s.schema.columns
    case OfConstraint(o) => o in s.schema.constraints
    case OfIndex(o) => o in s.schema.indexes
    case OfView(o) => o in s.schema.views
    case OfTrigger(o) => o in s.schema.triggers
    case OfRoutine(o) => o in s.schema.routines
    case OfMetadata(o) => o in s.metadata.objects
  }

  ghost predicate Annotated(s: CanonicalSchemaSnapshot, key: ObjectKey, annotation: Option<ObjectAnnotation>) {
    match annotation
    case Some(a) => a in s.metadata.annotations && a.objectKey == key
    case None => forall a :: a in s.metadata.annotations ==> a.objectKey != key
  }

  /** The row of an object of the snapshot. */
  ghost predicate NodeSaid(snapshotKey: string, s: CanonicalSchemaSnapshot, row: NodeRecord) {
    var content := row.payload.content;
    && Holds(s, content) && Annotated(s, KeyOf(content), row.payload.annotation)
    && Labelled(content, row.nodeLabel)
    && row.snapshotKey == snapshotKey && row.nodeKey == Print(KeyOf(content))
       && row.displayName == Some(NameOf(content))
  }

  // ------------------------------------------------------------------ labels

  function LabelOf(content: GraphObject): string {
    match content
    case OfDatabase(_) => "Database" case OfSchema(_) => "Schema" case OfTable(_) => "Table"
    case OfColumn(_) => "Column"
    case OfConstraint(o) => ConstraintLabel(o.kind) case OfIndex(_) => "Index" case OfView(_) => "View"
    case OfTrigger(_) => "Trigger" case OfRoutine(_) => "Routine" case OfMetadata(o) => MetadataLabel(o.key.objectKind)
  }

  lemma LabelIs(content: GraphObject, name: string)
    ensures Labelled(content, name) <==> name == LabelOf(content)
  {
    hide MetadataLabelled, ConstraintLabelled, MetadataLabel, ConstraintLabel;
    match content
    case OfConstraint(o) => ConstraintLabelIs(o.kind, name);
    case OfMetadata(o) => MetadataLabelIs(o.key.objectKind, name);
    case _ =>
  }

  lemma ConstraintLabelIs(kind: ConstraintKind, name: string)
    ensures ConstraintLabelled(kind, name) <==> name == ConstraintLabel(kind)
  {
  }

  lemma MetadataLabelIs(kind: ObjectKind, name: string)
    ensures MetadataLabelled(kind, name) <==> name == MetadataLabel(kind)
  {
  }

  // ------------------------------------------------------------ planned nodes

  function NodeFor(content: GraphObject): PlannedNode {
    PlannedNode(KeyOf(content), LabelOf(content), NameOf(content), content)
  }

  lemma MapMembers<T(!new)>(items: seq<T>, f: T -> PlannedNode, wrap: T -> GraphObject)
    requires forall x :: f(x) == NodeFor(wrap(x))
    ensures forall n :: n in MapSeq(f, items) <==> exists x :: x in items && n == NodeFor(wrap(x))
  {
    forall n ensures n in MapSeq(f, items) <==> exists x :: x in items && n == NodeFor(wrap(x)) {
      if n in MapSeq(f, items) {
        var i :| 0 <= i < |items| && MapSeq(f, items)[i] == n;
        assert items[i] in items;
      }
      if x :| x in items && n == NodeFor(wrap(x)) {
        var i :| 0 <= i < |items| && items[i] == x;
        assert MapSeq(f, items)[i] == n;
      }
    }
  }

  lemma TypedNodesAre(x: CanonicalSchemaSnapshot)
    ensures forall n :: n in MapSeq(SchemaNode, x.schema.schemas)
                        <==> n == NodeFor(n.content) && n.content.OfSchema? && Holds(x, n.content)
    ensures forall n :: n in MapSeq(TableNode, x.schema.tables)
                        <==> n == NodeFor(n.content) && n.content.OfTable? && Holds(x, n.content)
    ensures forall n :: n in MapSeq(ColumnNode, x.schema.columns)
                        <==> n == NodeFor(n.content) && n.content.OfColumn? && Holds(x, n.content)
    ensures forall n :: n in MapSeq(ConstraintNode, x.schema.constraints)
                        <==> n == NodeFor(n.content) && n.content.OfConstraint? && Holds(x, n.content)
    ensures forall n :: n in MapSeq(IndexNode, x.schema.indexes)
                        <==> n == NodeFor(n.content) && n.content.OfIndex? && Holds(x, n.content)
  {
    MapMembers(x.schema.schemas, SchemaNode, (o: SchemaObject) => OfSchema(o));
    MapMembers(x.schema.tables, TableNode, (o: TableObject) => OfTable(o));
    MapMembers(x.schema.columns, ColumnNode, (o: ColumnObject) => OfColumn(o));
    MapMembers(x.schema.constraints, ConstraintNode, (o: ConstraintObject) => OfConstraint(o));
    MapMembers(x.schema.indexes, IndexNode, (o: IndexObject) => OfIndex(o));
  }

  lemma OtherNodesAre(x: CanonicalSchemaSnapshot)
    ensures forall n :: n in MapSeq(ViewNode, x.schema.views)
                        <==> n == NodeFor(n.content) && n.content.OfView? && Holds(x, n.content)
    ensures forall n :: n in MapSeq(TriggerNode, x.schema.triggers)
                        <==> n == NodeFor(n.content) && n.content.OfTrigger? && Holds(x, n.content)
    ensures forall n :: n in MapSeq(RoutineNode, x.schema.routines)
                        <==> n == NodeFor(n.content) && n.content.OfRoutine? && Holds(x, n.content)
    ensures forall n :: n in MapSeq(MetadataNode, x.metadata.objects)
                        <==> n == NodeFor(n.content) && n.content.OfMetadata? && Holds(x, n.content)
  {
    MapMembers(x.schema.views, ViewNode, (o: ViewObject) => OfView(o));
    MapMembers(x.schema.triggers, TriggerNode, (o: TriggerObject) => OfTrigger(o));
    MapMembers(x.schema.routines, RoutineNode, (o: RoutineObject) => OfRoutine(o));
    MapMembers(x.metadata.objects, MetadataNode, (o: MetadataObject) => OfMetadata(o));
  }

  lemma NodesInOrderAre(x: CanonicalSchemaSnapshot)
    ensures forall n :: n in NodesInOrder(x) <==> n == NodeFor(n.content) && Holds(x, n.content)
  {
    hide MapSeq, SchemaNode, TableNode, ColumnNode, ConstraintNode, IndexNode, ViewNode, TriggerNode, RoutineNode,
         MetadataNode, NodeFor;
    TypedNodesAre(x);
    OtherNodesAre(x);
    assert DatabaseNode(x.schema.database) == NodeFor(OfDatabase(x.schema.database)) by {
      DatabaseNodeIs(x.schema.database);
    }
    forall n ensures n in NodesInOrder(x) <==> n == NodeFor(n.content) && Holds(x, n.content) {
      ContentOf(n);
      match n.content
      case _ =>
    }
  }

  lemma DatabaseNodeIs(o: DatabaseObject)
    ensures DatabaseNode(o) == NodeFor(OfDatabase(o)) && DatabaseNode(o).content == OfDatabase(o)
  {
  }

  lemma ContentOf(n: PlannedNode)
    ensures NodeFor(n.content).content == n.content
  {
  }

  lemma SameHeld(x: CanonicalSchemaSnapshot, s: CanonicalSchemaSnapshot, content: GraphObject)
    requires SameMembers(x, s) && x.schema.database == s.schema.database
    ensures Holds(x, content) <==> Holds(s, content)
  {
  }

  lemma PlannedNodesAre(s: CanonicalSchemaSnapshot)
    ensures forall n :: n in NodePlan(s) <==> n == NodeFor(n.content) && Holds(s, n.content)
  {
    hide NodesInOrder, NodeFor, Holds, SameMembers;
    InKeyOrderMembers(s);
    NodesInOrderAre(InKeyOrder(s));
    forall n: PlannedNode ensures Holds(InKeyOrder(s), n.content) <==> Holds(s, n.content) {
      SameHeld(InKeyOrder(s), s, n.content);
    }
  }

  lemma {:induction false} AnnotationIs(annotations: seq<ObjectAnnotation>, key: ObjectKey, a: Option<ObjectAnnotation>)
    requires a == AnnotationFor(annotations, key)
    ensures match a case Some(x) => x in annotations && x.objectKey == key
                    case None => forall x :: x in annotations ==> x.objectKey != key
  {
    if annotations != [] {
      var init, last := annotations[..|annotations| - 1], annotations[|annotations| - 1];
      assert annotations == init + [last];
      if last.objectKey != key { AnnotationIs(init, key, a); }
    }
  }

  lemma AnnotatedOnce(s: CanonicalSchemaSnapshot, key: ObjectKey, a: Option<ObjectAnnotation>)
    requires NoDuplicates(AnnotatedKeys(s.metadata.annotations))
    ensures Annotated(s, key, a) <==> a == AnnotationFor(s.metadata.annotations, key)
  {
    var all := s.metadata.annotations;
    var b := AnnotationFor(all, key);
    AnnotationIs(all, key, b);
    if Annotated(s, key, a) && a.Some? && b.Some? {
      var i :| 0 <= i < |all| && all[i] == a.value;
      var j :| 0 <= j < |all| && all[j] == b.value;
      assert AnnotatedKeys(all)[i] == AnnotatedKeys(all)[j];
    }
  }

  /** The stored nodes of a well-formed snapshot are exactly the rows of its objects. */
  lemma StoredNodesTell(snapshotKey: string, s: CanonicalSchemaSnapshot)
    requires CanonicalWellFormed(s)
    ensures forall row :: row in GraphOf(snapshotKey, s).nodes.Values <==> NodeSaid(snapshotKey, s, row)
  {
    hide CanonicalWellFormed, NodePlan, NodeFor, NodeSaid, GraphOf, Holds;
    var rows := NodeRows(snapshotKey, s);
    NodeRowKeys(snapshotKey, s);
    StoredAsRows(snapshotKey, s);
    PlannedNodesAre(s);
    forall row ensures row in rows <==> NodeSaid(snapshotKey, s, row) {
      if row in rows {
        var i :| 0 <= i < |rows| && rows[i] == row;
        RowIsSaid(snapshotKey, s, NodePlan(s)[i]);
      }
      if NodeSaid(snapshotKey, s, row) {
        SaidIsRow(snapshotKey, s, row);
        var n := NodeFor(row.payload.content);
        assert n in NodePlan(s) by { ContentKept(row.payload.content); HeldIn(snapshotKey, s, row); }
        var i :| 0 <= i < |NodePlan(s)| && NodePlan(s)[i] == n;
        assert rows[i] == row;
      }
    }
  }

  lemma StoredAsRows(snapshotKey: string, s: CanonicalSchemaSnapshot)
    requires NoDuplicates(MapSeq(RowNodeKey, NodeRows(snapshotKey, s)))
    ensures forall row :: row in GraphOf(snapshotKey, s).nodes.Values <==> row in NodeRows(snapshotKey, s)
  {
    hide NodePlan;
    ValuesAreRows(NodeRows(snapshotKey, s), RowNodeKey, GraphOf(snapshotKey, s).nodes);
  }

  lemma ContentKept(content: GraphObject)
    ensures NodeFor(content).content == content
  {
  }

  lemma HeldIn(snapshotKey: string, s: CanonicalSchemaSnapshot, row: NodeRecord)
    requires NodeSaid(snapshotKey, s, row)
    ensures Holds(s, row.payload.content)
  {
  }

  lemma AnnotationsDistinct(s: CanonicalSchemaSnapshot)
    requires CanonicalWellFormed(s)
    ensures NoDuplicates(AnnotatedKeys(s.metadata.annotations))
  {
    hide WellFormed, NoDuplicates;
  }

  lemma RowIsSaid(snapshotKey: string, s: CanonicalSchemaSnapshot, n: PlannedNode)
    requires CanonicalWellFormed(s) && n == NodeFor(n.content) && Holds(s, n.content)
    ensures NodeSaid(snapshotKey, s, NodeRowOf(snapshotKey, s.metadata.annotations, n))
  {
    hide CanonicalWellFormed, Labelled, LabelOf, Annotated, Print, Holds;
    AnnotationsDistinct(s);
    LabelIs(n.content, n.nodeLabel);
    AnnotatedOnce(s, n.key, AnnotationFor(s.metadata.annotations, n.key));
  }

  lemma SaidIsRow(snapshotKey: string, s: CanonicalSchemaSnapshot, row: NodeRecord)
    requires CanonicalWellFormed(s) && NodeSaid(snapshotKey, s, row)
    ensures row == NodeRowOf(snapshotKey, s.metadata.annotations, NodeFor(row.payload.content))
  {
    hide CanonicalWellFormed, Labelled, LabelOf, Annotated, Print, Holds;
    var content := row.payload.content;
    AnnotationsDistinct(s);
    LabelIs(content, row.nodeLabel);
    AnnotatedOnce(s, KeyOf(content), row.payload.annotation);
  }
}
