/** When the text keys of edges tell the edges apart, and what it costs when they do not
    (graph_builder.rs). */
module EdgeTexts {
  import opened Wrappers
  import opened Lists
  import opened ObjectKeys
  import opened SchemaModel
  import opened SnapshotRules
  import opened CanonicalRules
  import opened Projection
  import opened ProjectionClosure

  /** A number in decimal digits. */
  function Decimal(n: nat): string {
    if n < 10 then [Digit(n)] else Decimal(n / 10) + [Digit(n % 10)]
  }

  function Digit(d: nat): char
    requires d < 10
  {
    '0' + d as char
  }

  function OrdinalText(ordinal: Option<nat>): string { match ordinal case Some(n) => Decimal(n) case None => [] }

  /** The text key of an edge row. */
  function EdgeKeyText(e: PlannedEdge): string {
    EdgeType(e.kind) + ":" + Print(e.from) + "->" + Print(e.to)
    + (match e.relationship case Some(r) => ":" + OrdinalText(r.ordinal) case None => [])
  }

  // ----------------------------------------------------------------- decimals

  lemma {:induction false} DecimalIsDigits(n: nat)
    ensures Decimal(n) != [] && forall c :: c in Decimal(n) ==> '0' <= c <= '9'
    ensures |Decimal(n)| == 1 <==> n < 10
  {
    if n >= 10 { DecimalIsDigits(n / 10); }
  }

  lemma {:induction false} DecimalInjective(a: nat, b: nat)
    requires Decimal(a) == Decimal(b)
    ensures a == b
  {
    DecimalIsDigits(a);
    DecimalIsDigits(b);
    var text := Decimal(a);
    assert text[|text| - 1] == Digit(a % 10) == Digit(b % 10);
    if a >= 10 {
      assert Decimal(a / 10) == text[..|text| - 1] == Decimal(b / 10);
      DecimalInjective(a / 10, b / 10);
    }
  }

  lemma OrdinalTextInjective(a: Option<nat>, b: Option<nat>)
    requires OrdinalText(a) == OrdinalText(b)
    ensures a == b
    ensures ':' !in OrdinalText(a)
  {
    if a.Some? { DecimalIsDigits(a.value); }
    if b.Some? { DecimalIsDigits(b.value); }
    if a.Some? && b.Some? { DecimalInjective(a.value, b.value); }
  }

  // ---------------------------------------------------------------- edge types

  /** Length, first and last character, which tell the names of edge types apart; for an extension,
      those of the fixed part. */
  ghost function RelationShape(kind: MetadataRelationshipKind): (nat, char, char) {
    match kind
    case DependsOn => (10, 'D', 'N')
    case UsesType => (9, 'U', 'E')
    case UsesSequence => (13, 'U', 'E')
    case PartitionOf => (12, 'P', 'F')
    case InheritsFrom => (13, 'I', 'M')
    case SynonymFor => (11, 'S', 'R')
    case HasParameter => (13, 'H', 'R')
    case ReturnsType => (12, 'R', 'E')
    case OwnedBy => (8, 'O', 'Y')
    case Materializes => (12, 'M', 'S')
    case Invokes => (7, 'I', 'S')
    case IncludesColumn => (15, 'I', 'N')
    case ExcludesWith => (13, 'E', 'H')
    case ExtensionRelation(_) => (9, 'E', 'N')
  }

  ghost function TypeShape(kind: EdgeKind): (nat, char, char) {
    match kind
    case HasSchema => (19, 'D', 'A')
    case HasTable => (16, 'S', 'E')
    case HasColumn => (16, 'T', 'N')
    case HasConstraint => (20, 'T', 'T')
    case InPrimaryKey => (21, 'C', 'Y')
    case FromColumn => (14, 'F', 'N')
    case ToColumn => (12, 'F', 'N')
    case InUnique => (16, 'C', 'E')
    case InCheck => (15, 'C', 'K')
    case HasIndex => (15, 'T', 'X')
    case InIndex => (15, 'C', 'X')
    case HasView => (15, 'S', 'W')
    case ViewOnTable => (21, 'V', 'E')
    case ViewOnColumn => (22, 'V', 'N')
    case ViewOnView => (20, 'V', 'W')
    case TableHasTrigger => (17, 'T', 'R')
    case TriggerOnTable => (16, 'T', 'E')
    case ViewHasTrigger => (16, 'V', 'R')
    case TriggerOnView => (15, 'T', 'W')
    case Executes => (24, 'T', 'E')
    case HasRoutine => (18, 'S', 'E')
    case RoutineOnTable => (24, 'R', 'E')
    case RoutineOnColumn => (25, 'R', 'N')
    case ParentOf => (15, 'M', 'T')
    case Related(relation) => RelationShape(relation)
  }

  predicate IsExtension(kind: EdgeKind) { kind.Related? && kind.relation.ExtensionRelation? }

  /** An edge type up to its first colon. */
  function TypeHead(kind: EdgeKind): string { if IsExtension(kind) then "EXTENSION" else EdgeType(kind) }

  /** The shape table is right, and the head holds none of the characters that separate the parts. */
  ghost predicate HeadFits(kind: EdgeKind) {
    var head := TypeHead(kind);
    |head| >= 2 && (|head|, head[0], head[|head| - 1]) == TypeShape(kind) && ':' !in head && '>' !in head
  }

  predicate IsEarlyRelation(kind: MetadataRelationshipKind) {
    kind in {DependsOn, UsesType, UsesSequence, PartitionOf, InheritsFrom, SynonymFor, HasParameter}
  }

  lemma EarlyRelationHead(kind: MetadataRelationshipKind)
    requires IsEarlyRelation(kind)
    ensures HeadFits(Related(kind))
  {
  }

  lemma LateRelationHead(kind: MetadataRelationshipKind)
    requires !IsEarlyRelation(kind)
    ensures HeadFits(Related(kind))
  {
  }

  lemma OwnerHead(kind: EdgeKind)
    requires Stage(kind) < 3
    ensures HeadFits(kind)
  {
  }

  lemma ConstraintHead(kind: EdgeKind)
    requires Stage(kind) == 3
    ensures HeadFits(kind)
  {
  }

  lemma IndexHead(kind: EdgeKind)
    requires Stage(kind) == 4
    ensures HeadFits(kind)
  {
  }

  lemma ViewHead(kind: EdgeKind)
    requires Stage(kind) == 5
    ensures HeadFits(kind)
  {
  }

  lemma TriggerHead(kind: EdgeKind)
    requires Stage(kind) == 6
    ensures HeadFits(kind)
  {
  }

  lemma LateHead(kind: EdgeKind)
    requires 7 <= Stage(kind) < 9
    ensures HeadFits(kind)
  {
  }

  lemma TypeHeadShape(kind: EdgeKind)
    ensures HeadFits(kind)
  {
    hide HeadFits;
    if kind.Related? {
      if IsEarlyRelation(kind.relation) { EarlyRelationHead(kind.relation); } else { LateRelationHead(kind.relation); }
    } else if Stage(kind) < 3 {
      OwnerHead(kind);
    } else if Stage(kind) == 3 {
      ConstraintHead(kind);
    } else if Stage(kind) == 4 {
      IndexHead(kind);
    } else if Stage(kind) == 5 {
      ViewHead(kind);
    } else if Stage(kind) == 6 {
      TriggerHead(kind);
    } else {
      LateHead(kind);
    }
  }

  lemma RelationShapeInjective(a: MetadataRelationshipKind, b: MetadataRelationshipKind)
    requires RelationShape(a) == RelationShape(b)
    ensures a == b || (a.ExtensionRelation? && b.ExtensionRelation?)
  {
  }

  /** No edge of a metadata relationship has the shape of another kind. */
  lemma RelatedShapesApart(a: EdgeKind, b: MetadataRelationshipKind)
    requires TypeShape(a) == RelationShape(b)
    ensures a.Related?
  {
  }

  lemma ShapeInjective(a: EdgeKind, b: EdgeKind)
    requires TypeShape(a) == TypeShape(b)
    ensures a == b || (IsExtension(a) && IsExtension(b))
  {
    hide RelationShape;
    if b.Related? {
      RelatedShapesApart(a, b.relation);
      RelationShapeInjective(a.relation, b.relation);
    } else if a.Related? {
      RelatedShapesApart(b, a.relation);
    }
  }

  lemma TypeHeadInjective(a: EdgeKind, b: EdgeKind)
    requires TypeHead(a) == TypeHead(b)
    ensures a == b || (IsExtension(a) && IsExtension(b))
  {
    assert TypeShape(a) == TypeShape(b) by {
      TypeHeadShape(a);
      TypeHeadShape(b);
    }
    ShapeInjective(a, b);
  }

  // ---------------------------------------------------------------- splitting

  /** Texts split alike at the first occurrence of a character. */
  lemma {:induction false} SplitFirstEqual(c: char, a: string, b: string, x: string, y: string)
    requires c !in a && c !in x && a + [c] + b == x + [c] + y
    ensures a == x && b == y
  {
    var text := a + [c] + b;
    assert text[|a|] == c && text[|x|] == c;
    assert |a| >= |x| by { assert forall i :: 0 <= i < |x| ==> text[i] == x[i] && x[i] in x; }
    assert |x| >= |a| by { assert forall i :: 0 <= i < |a| ==> text[i] == a[i] && a[i] in a; }
    assert a == text[..|a|] == x;
    assert b == text[|a| + 1..] == y;
  }

  lemma SplitLastEqual(c: char, a: string, b: string, x: string, y: string)
    requires c !in b && c !in y && a + [c] + b == x + [c] + y
    ensures a == x && b == y
  {
    var text := a + [c] + b;
    assert text[|a|] == c && text[|x|] == c;
    assert |a| >= |x| by { assert forall i :: |a| < i < |text| ==> text[i] == b[i - |a| - 1] && b[i - |a| - 1] in b; }
    assert |x| >= |a| by { assert forall i :: |x| < i < |text| ==> text[i] == y[i - |x| - 1] && y[i - |x| - 1] in y; }
    assert a == text[..|a|] == x;
    assert b == text[|a| + 1..] == y;
  }

  // --------------------------------------------------------------- the result

  /** The texts of an edge cannot be misread: no '>' in a key or an extension's name, and no ':' in
      an extension's name. */
  predicate Unambiguous(e: PlannedEdge) {
    && '>' !in Print(e.from)
    && (IsExtension(e.kind) ==> '>' !in e.kind.relation.name && ':' !in e.kind.relation.name)
  }

  /** A planned edge carries a relationship exactly when its kind says so. */
  predicate Consistent(e: PlannedEdge) {
    match e.relationship
    case Some(r) => e == RelationshipEdge(r)
    case None => !e.kind.Related?
  }

  function Left(e: PlannedEdge): string { EdgeType(e.kind) + ":" + Print(e.from) }

  function Right(e: PlannedEdge): string {
    Print(e.to) + (match e.relationship case Some(r) => ":" + OrdinalText(r.ordinal) case None => [])
  }

  lemma TextSplits(e: PlannedEdge)
    requires Unambiguous(e)
    ensures EdgeKeyText(e) == (Left(e) + "-") + ">" + Right(e) && '>' !in Left(e) + "-"
  {
    TypeHeadShape(e.kind);
    assert EdgeKeyText(e) == (Left(e) + "-") + ">" + Right(e);
    if IsExtension(e.kind) { assert EdgeType(e.kind) == "EXTENSION:" + e.kind.relation.name; }
  }

  lemma LeftInjective(a: PlannedEdge, b: PlannedEdge)
    requires Unambiguous(a) && Unambiguous(b) && Left(a) == Left(b)
    ensures a.kind == b.kind && a.from == b.from
  {
    TypeHeadShape(a.kind);
    TypeHeadShape(b.kind);
    var x, y := AfterHead(a), AfterHead(b);
    HeadSplits(a);
    HeadSplits(b);
    SplitFirstEqual(':', TypeHead(a.kind), x, TypeHead(b.kind), y);
    TypeHeadInjective(a.kind, b.kind);
    if IsExtension(a.kind) {
      SplitFirstEqual(':', a.kind.relation.name, Print(a.from), b.kind.relation.name, Print(b.from));
    }
    PrintInjective(a.from, b.from);
  }

  function AfterHead(e: PlannedEdge): string {
    if IsExtension(e.kind) then e.kind.relation.name + ":" + Print(e.from) else Print(e.from)
  }

  lemma HeadSplits(e: PlannedEdge)
    ensures Left(e) == TypeHead(e.kind) + ":" + AfterHead(e)
  {
    if IsExtension(e.kind) {
      var name := e.kind.relation.name;
      assert EdgeType(e.kind) == "EXTENSION" + ":" + name;
      assert ("EXTENSION" + ":" + name) + ":" + Print(e.from) == "EXTENSION" + ":" + (name + ":" + Print(e.from));
    }
  }

  lemma RightInjective(a: PlannedEdge, b: PlannedEdge)
    requires Right(a) == Right(b) && (a.relationship.Some? <==> b.relationship.Some?)
    ensures a.to == b.to && (a.relationship.Some? ==> a.relationship.value.ordinal == b.relationship.value.ordinal)
  {
    if a.relationship.Some? {
      var p, q := a.relationship.value.ordinal, b.relationship.value.ordinal;
      OrdinalTextInjective(p, p);
      OrdinalTextInjective(q, q);
      assert Right(a) == Print(a.to) + ":" + OrdinalText(p) && Right(b) == Print(b.to) + ":" + OrdinalText(q);
      SplitLastEqual(':', Print(a.to), OrdinalText(p), Print(b.to), OrdinalText(q));
      OrdinalTextInjective(p, q);
    } else {
      assert Right(a) == Print(a.to) && Right(b) == Print(b.to);
    }
    PrintInjective(a.to, b.to);
  }

  /** Unambiguous edges with the same text say the same. */
  lemma EdgeTextInjective(a: PlannedEdge, b: PlannedEdge)
    requires Unambiguous(a) && Unambiguous(b) && Consistent(a) && Consistent(b)
    requires EdgeKeyText(a) == EdgeKeyText(b)
    ensures IdentityOf(a) == IdentityOf(b)
  {
    TextSplits(a);
    TextSplits(b);
    SplitFirstEqual('>', Left(a) + "-", Right(a), Left(b) + "-", Right(b));
    assert Left(a) == (Left(a) + "-")[..|Left(a)|] == Left(b);
    LeftInjective(a, b);
    RightInjective(a, b);
  }

  function Texts(edges: seq<PlannedEdge>): seq<string> { MapSeq(EdgeKeyText, edges) }

  lemma TextsDistinct(edges: seq<PlannedEdge>)
    requires NoDuplicates(MapSeq(IdentityOf, edges))
    requires forall e :: e in edges ==> Unambiguous(e) && Consistent(e)
    ensures NoDuplicates(Texts(edges))
  {
    forall i, j | 0 <= i < j < |edges| ensures EdgeKeyText(edges[i]) != EdgeKeyText(edges[j]) {
      assert MapSeq(IdentityOf, edges)[i] != MapSeq(IdentityOf, edges)[j];
      if EdgeKeyText(edges[i]) == EdgeKeyText(edges[j]) { EdgeTextInjective(edges[i], edges[j]); }
    }
  }
}
