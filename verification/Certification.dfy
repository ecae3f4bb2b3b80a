/** Completeness certificates: reconciling what an adapter discovered with what a snapshot holds
    (certification.rs). */
module Certification {
  import opened Wrappers
  import opened Lists
  import opened Ordering
  import opened ObjectKeys
  import opened SchemaModel
  import opened TextRules
  import opened SnapshotRules
  import opened SnapshotValidation
  import opened CanonicalRules
  import opened Canonical

  const COMPLETE_CONTRACT_VERSION: nat := 2
  const MAX_PROOF_TEXT_BYTES: nat := 16_384
  const MAX_SCOPE_VALUE_BYTES: nat := 1_024

  const ALL_KINDS: seq<ObjectKind> :=
    [Database, Schema, Table, Column, PrimaryKey, ForeignKey, UniqueConstraint, CheckConstraint, Index, View,
     ViewColumn, Trigger, Routine,
     MaterializedView, Sequence, RoutineParameter, UserDefinedType, Domain, EnumValue, Synonym, ExclusionConstraint,
     Event, Package,
     Principal, Policy, Extension]

  const ALL_RELATIONS: seq<RelationshipCategory> :=
    [DatabaseHasSchema] + ([SchemaHasTable] + ([TableHasColumn]
                                               + ([TableHasConstraint] + ([ConstraintColumn] + ([ForeignKeyColumnPair]
    + ([TableHasIndex] + ([IndexColumn] + ([SchemaHasView] + ([ViewDependency] + ([TriggerTarget] + ([TriggerRoutine]
    + ([SchemaHasRoutine] + ([RoutineDependency] + ([MetadataParent] + [MetadataRelation]))))))))))))))

  ghost function KindIndex(kind: ObjectKind): nat {
    match kind
    case Database => 0 case Schema => 1 case Table => 2 case Column => 3 case PrimaryKey => 4 case ForeignKey => 5
    case UniqueConstraint => 6 case CheckConstraint => 7 case Index => 8 case View => 9 case ViewColumn => 10
    case Trigger => 11
    case Routine => 12 case MaterializedView => 13 case Sequence => 14 case RoutineParameter => 15
    case UserDefinedType => 16
    case Domain => 17 case EnumValue => 18 case Synonym => 19 case ExclusionConstraint => 20 case Event => 21
    case Package => 22
    case Principal => 23 case Policy => 24 case Extension => 25
  }

  lemma KindListed(kind: ObjectKind)
    ensures KindIndex(kind) < |ALL_KINDS| && ALL_KINDS[KindIndex(kind)] == kind
  {
  }

  lemma KindsListedOnce()
    ensures NoDuplicates(ALL_KINDS) && forall k: ObjectKind :: k in ALL_KINDS
  {
    forall i | 0 <= i < |ALL_KINDS| ensures KindIndex(ALL_KINDS[i]) == i {}
    forall k: ObjectKind ensures k in ALL_KINDS { KindListed(k); }
  }

  ghost function RelationIndex(c: RelationshipCategory): nat {
    match c
    case DatabaseHasSchema => 0 case SchemaHasTable => 1 case TableHasColumn => 2 case TableHasConstraint => 3
    case ConstraintColumn => 4
    case ForeignKeyColumnPair => 5 case TableHasIndex => 6 case IndexColumn => 7 case SchemaHasView => 8
    case ViewDependency => 9
    case TriggerTarget => 10 case TriggerRoutine => 11 case SchemaHasRoutine => 12 case RoutineDependency => 13
    case MetadataParent => 14
    case MetadataRelation => 15
  }

  lemma RelationsListedOnce()
    ensures NoDuplicates(ALL_RELATIONS) && forall c: RelationshipCategory :: c in ALL_RELATIONS
  {
    forall i | 0 <= i < |ALL_RELATIONS| ensures RelationIndex(ALL_RELATIONS[i]) == i {}
    forall c: RelationshipCategory ensures c in ALL_RELATIONS { assert ALL_RELATIONS[RelationIndex(c)] == c; }
  }

  // ------------------------------------------------------------ emitted counts

  function CountKind(entries: seq<Entry>, kind: ObjectKind): nat {
    if entries == [] then 0 else (if entries[0].kind == kind then 1 else 0) + CountKind(entries[1..], kind)
  }

  /** How many objects of a kind the snapshot holds. */
  function EmittedObjects(s: CanonicalSchemaSnapshot, kind: ObjectKind): nat { CountKind(AllEntries(s), kind) }

  predicate IsForeignKey(c: ConstraintObject) { c.kind == ForeignKeyRule }

  function ForeignKeyColumns(c: ConstraintObject): nat { if IsForeignKey(c) then |c.columns| else 0 }

  function OtherColumns(c: ConstraintObject): nat { if IsForeignKey(c) then 0 else |c.columns| }

  function IndexWidth(i: IndexObject): nat { |i.columns| }

  function ViewWidth(v: ViewObject): nat { |v.dependsOn| }

  function RoutineWidth(r: RoutineObject): nat { |r.dependsOn| }

  function RunsRoutine(t: TriggerObject): nat { if t.executesRoutineKey.Some? then 1 else 0 }

  function HasParent(o: MetadataObject): nat { if o.parentKey.Some? then 1 else 0 }

  /** How many relationships of a category the snapshot holds. */
  function EmittedRelations(s: CanonicalSchemaSnapshot, category: RelationshipCategory): nat {
    match category
    case DatabaseHasSchema => |s.schema.schemas|
    case SchemaHasTable => |s.schema.tables|
    case TableHasColumn => |s.schema.columns|
    case TableHasConstraint => |s.schema.constraints|
    case ConstraintColumn => SumOf(s.schema.constraints, OtherColumns)
    case ForeignKeyColumnPair => SumOf(s.schema.constraints, ForeignKeyColumns)
    case TableHasIndex => |s.schema.indexes|
    case IndexColumn => SumOf(s.schema.indexes, IndexWidth)
    case SchemaHasView => |s.schema.views|
    case ViewDependency => SumOf(s.schema.views, ViewWidth)
    case TriggerTarget => |s.schema.triggers|
    case TriggerRoutine => SumOf(s.schema.triggers, RunsRoutine)
    case SchemaHasRoutine => |s.schema.routines|
    case RoutineDependency => SumOf(s.schema.routines, RoutineWidth)
    case MetadataParent => SumOf(s.metadata.objects, HasParent)
    case MetadataRelation => |s.metadata.relationships|
  }

  lemma {:induction false} CountKindJoined(a: seq<Entry>, b: seq<Entry>, kind: ObjectKind)
    ensures CountKind(a + b, kind) == CountKind(a, kind) + CountKind(b, kind)
  {
    if a == [] {
      assert a + b == b;
    } else {
      assert (a + b)[1..] == a[1..] + b;
      CountKindJoined(a[1..], b, kind);
    }
  }

  lemma {:induction false} CountKindUniform(entries: seq<Entry>, all: ObjectKind, kind: ObjectKind)
    requires forall e :: e in entries ==> e.kind == all
    ensures CountKind(entries, kind) == if kind == all then |entries| else 0
  {
    if entries != [] { CountKindUniform(entries[1..], all, kind); }
  }

  /** What the counting code writes for the collections whose kind is fixed. */
  function ListedCount(s: SchemaSnapshot, kind: ObjectKind): nat {
    match kind
    case Database => 1
    case Schema => |s.schemas|
    case Table => |s.tables|
    case Column => |s.columns|
    case Index => |s.indexes|
    case View => |s.views|
    case Trigger => |s.triggers|
    case Routine => |s.routines|
    case _ => 0
  }

  /** The count of a concatenation, for lists given one after another. */
  lemma CountKindOfFive(a: seq<Entry>, b: seq<Entry>, c: seq<Entry>, d: seq<Entry>, e: seq<Entry>, kind: ObjectKind)
    ensures CountKind(a + b + c + d + e, kind)
         == CountKind(a, kind) + CountKind(b, kind) + CountKind(c, kind) + CountKind(d, kind) + CountKind(e, kind)
  {
    CountKindJoined(a, b, kind);
    CountKindJoined(a + b, c, kind);
    CountKindJoined(a + b + c, d, kind);
    CountKindJoined(a + b + c + d, e, kind);
  }

  lemma CountKindOfNine(a: seq<Entry>, b: seq<Entry>, c: seq<Entry>, d: seq<Entry>, e: seq<Entry>, f: seq<Entry>,
                        g: seq<Entry>,
                        h: seq<Entry>, i: seq<Entry>, kind: ObjectKind)
    ensures CountKind(a + b + c + d + e + f + g + h + i, kind)
         == CountKind(a, kind) + CountKind(b, kind) + CountKind(c, kind) + CountKind(d, kind) + CountKind(e, kind)
            + CountKind(f, kind) + CountKind(g, kind) + CountKind(h, kind) + CountKind(i, kind)
  {
    CountKindOfFive(a, b, c, d, e, kind);
    CountKindOfFive(a + b + c + d + e, f, g, h, i, kind);
  }

  lemma TypedObjectsSplit(s: SchemaSnapshot, kind: ObjectKind)
    ensures CountKind(Entries(s), kind) == ListedCount(s, kind) + CountKind(ConstraintEntries(s.constraints), kind)
  {
    hide Entries, CountKind;
    PiecesSplit(s, kind);
    UniformCounts(s, kind);
  }

  lemma PiecesSplit(s: SchemaSnapshot, kind: ObjectKind)
    ensures CountKind(Entries(s), kind)
         == CountKind([Entry(s.database.key, Database)], kind) + CountKind(SchemaEntries(s.schemas), kind)
            + CountKind(TableEntries(s.tables), kind) + CountKind(ColumnEntries(s.columns), kind)
            + CountKind(ConstraintEntries(s.constraints), kind) + CountKind(IndexEntries(s.indexes), kind)
            + CountKind(ViewEntries(s.views), kind) + CountKind(TriggerEntries(s.triggers), kind)
            + CountKind(RoutineEntries(s.routines), kind)
  {
    CountKindOfNine([Entry(s.database.key, Database)], SchemaEntries(s.schemas), TableEntries(s.tables),
                    ColumnEntries(s.columns),
                    ConstraintEntries(s.constraints), IndexEntries(s.indexes), ViewEntries(s.views),
                    TriggerEntries(s.triggers),
                    RoutineEntries(s.routines), kind);
  }

  lemma UniformCounts(s: SchemaSnapshot, kind: ObjectKind)
    ensures CountKind([Entry(s.database.key, Database)], kind) == (if kind == Database then 1 else 0)
    ensures CountKind(SchemaEntries(s.schemas), kind) == (if kind == Schema then |s.schemas| else 0)
    ensures CountKind(TableEntries(s.tables), kind) == (if kind == Table then |s.tables| else 0)
    ensures CountKind(ColumnEntries(s.columns), kind) == (if kind == Column then |s.columns| else 0)
    ensures CountKind(IndexEntries(s.indexes), kind) == (if kind == Index then |s.indexes| else 0)
    ensures CountKind(ViewEntries(s.views), kind) == (if kind == View then |s.views| else 0)
    ensures CountKind(TriggerEntries(s.triggers), kind) == (if kind == Trigger then |s.triggers| else 0)
    ensures CountKind(RoutineEntries(s.routines), kind) == (if kind == Routine then |s.routines| else 0)
  {
    CountKindUniform([Entry(s.database.key, Database)], Database, kind);
    CountKindUniform(SchemaEntries(s.schemas), Schema, kind);
    CountKindUniform(TableEntries(s.tables), Table, kind);
    CountKindUniform(ColumnEntries(s.columns), Column, kind);
    CountKindUniform(IndexEntries(s.indexes), Index, kind);
    CountKindUniform(ViewEntries(s.views), View, kind);
    CountKindUniform(TriggerEntries(s.triggers), Trigger, kind);
    CountKindUniform(RoutineEntries(s.routines), Routine, kind);
  }

  lemma EmittedObjectsSplit(s: CanonicalSchemaSnapshot, kind: ObjectKind)
    ensures EmittedObjects(s, kind)
         == ListedCount(s.schema, kind) + CountKind(ConstraintEntries(s.schema.constraints), kind)
             + CountKind(MetadataEntries(s.metadata.objects), kind)
  {
    CountKindJoined(Entries(s.schema), MetadataEntries(s.metadata.objects), kind);
    TypedObjectsSplit(s.schema, kind);
  }

  lemma {:induction false} CountKindLast(entries: seq<Entry>, last: Entry, kind: ObjectKind)
    ensures CountKind(entries + [last], kind) == CountKind(entries, kind) + (if last.kind == kind then 1 else 0)
  {
    CountKindJoined(entries, [last], kind);
  }

  /** Adds the entries of a collection to the counts, one object after another. */
  method AddCounts(counts0: map<ObjectKind, nat>, entries: seq<Entry>) returns (counts: map<ObjectKind, nat>)
    requires forall k: ObjectKind :: k in counts0
    ensures forall k: ObjectKind :: k in counts && counts[k] == counts0[k] + CountKind(entries, k)
  {
    counts := counts0;
    for i := 0 to |entries|
      invariant forall k: ObjectKind :: k in counts && counts[k] == counts0[k] + CountKind(entries[..i], k)
    {
      var kind := entries[i].kind;
      forall k: ObjectKind ensures CountKind(entries[..i + 1], k) == CountKind(entries[..i], k)
          + (if kind == k then 1 else 0) {
        PrefixLast(entries, i);
        CountKindLast(entries[..i], entries[i], k);
      }
      counts := counts[kind := counts[kind] + 1];
    }
    WholePrefix(entries);
  }

  /** `emitted_object_counts`: lengths for the fixed collections, then constraints and metadata one by one. */
  method EmittedObjectCounts(s: CanonicalSchemaSnapshot) returns (counts: map<ObjectKind, nat>)
    ensures forall k: ObjectKind :: k in counts && counts[k] == EmittedObjects(s, k)
  {
    KindsListedOnce();
    counts := map k | k in ALL_KINDS :: ListedCount(s.schema, k);
    ghost var listed := counts;
    counts := AddCounts(counts, ConstraintEntries(s.schema.constraints));
    counts := AddCounts(counts, MetadataEntries(s.metadata.objects));
    forall k: ObjectKind ensures counts[k] == EmittedObjects(s, k) { EmittedObjectsSplit(s, k); }
  }

  /** The two counters of the constraint loop in `emitted_relationship_counts`. */
  method CountConstraintColumns(constraints: seq<ConstraintObject>)
    returns (constraintColumns: nat, foreignKeyPairs: nat)
    ensures constraintColumns == SumOf(constraints, OtherColumns)
            && foreignKeyPairs == SumOf(constraints, ForeignKeyColumns)
  {
    constraintColumns, foreignKeyPairs := 0, 0;
    for i := 0 to |constraints|
      invariant constraintColumns == SumOf(constraints[..i], OtherColumns)
                && foreignKeyPairs == SumOf(constraints[..i], ForeignKeyColumns)
    {
      var c := constraints[i];
      if c.kind == ForeignKeyRule { foreignKeyPairs := foreignKeyPairs + |c.columns|; } else {
        constraintColumns := constraintColumns + |c.columns|;
      }
      SumOfLast(constraints[..i], c, OtherColumns);
      SumOfLast(constraints[..i], c, ForeignKeyColumns);
      PrefixLast(constraints, i);
    }
    WholePrefix(constraints);
  }

  /** Counting a list kind by kind counts every entry once. */
  lemma {:induction false} SumOfCounts(kinds: seq<ObjectKind>, entries: seq<Entry>, f: ObjectKind -> nat)
    requires NoDuplicates(kinds) && forall e :: e in entries ==> e.kind in kinds
    requires forall k :: f(k) == CountKind(entries, k)
    ensures SumOf(kinds, f) == |entries|
    decreases |entries|
  {
    if entries == [] {
      SumOfZero(kinds, f);
    } else {
      var rest := (k: ObjectKind) => CountKind(entries[1..], k);
      SumOfCounts(kinds, entries[1..], rest);
      SumOfOneMore(kinds, f, rest, entries[0].kind);
    }
  }

  lemma {:induction false} SumOfOneMore(kinds: seq<ObjectKind>, f: ObjectKind -> nat, g: ObjectKind -> nat,
                                        kind: ObjectKind)
    requires NoDuplicates(kinds) && forall k :: f(k) == g(k) + (if k == kind then 1 else 0)
    ensures SumOf(kinds, f) == SumOf(kinds, g) + (if kind in kinds then 1 else 0)
  {
    if kinds != [] {
      assert NoDuplicates(kinds[1..]) by {
        forall i, j | 0 <= i < j < |kinds[1..]| ensures kinds[1..][i] != kinds[1..][j] {
          assert kinds[i + 1] != kinds[j + 1];
        }
      }
      SumOfOneMore(kinds[1..], f, g, kind);
      assert kinds == [kinds[0]] + kinds[1..];
      assert kinds[0] !in kinds[1..];
    }
  }

  // ------------------------------------------------------------- verification

  predicate ProofTextOk(text: string) { !Blank(text) && ByteLength(text) <= MAX_PROOF_TEXT_BYTES && !HasControl(text) }

  predicate ScopeValuesOk(values: seq<string>) {
    && values != [] && SortedSet(values, ByText) == values
    && forall v :: v in values ==> !Blank(v) && ByteLength(v) <= MAX_SCOPE_VALUE_BYTES && !HasControl(v)
  }

  predicate CapabilitiesOk(s: SchemaSnapshot) {
    var c := s.capabilities;
    && c.sourceKind == s.sourceKind && c.metadataOnly
    && c.schemas && c.tables && c.columns && c.constraints && c.indexes
    && c.views == Supported && c.triggers == Supported && c.routines == Supported && c.dependencies == Supported
    && c.limitations == []
  }

  function CheckOrder(c: CapabilityCheck): SortKey { SortKey(0, [c.name, c.evidence], 0) }

  function CheckNames(checks: seq<CapabilityCheck>): (r: seq<string>)
    ensures |r| == |checks|
  {
    seq(|checks|, i requires 0 <= i < |checks| => checks[i].name)
  }

  predicate ChecksOk(checks: seq<CapabilityCheck>) {
    && checks != [] && (forall c :: c in checks ==> ProofTextOk(c.name) && ProofTextOk(c.evidence))
    && NoDuplicates(CheckNames(checks)) && StableSort(checks, CheckOrder) == checks
  }

  function Categories<C>(counts: seq<CountReconciliation<C>>): (r: seq<C>)
    ensures |r| == |counts|
  {
    seq(|counts|, i requires 0 <= i < |counts| => counts[i].category)
  }

  /** Each category of the list is reconciled once, with discovered, emitted and actual all equal. */
  ghost predicate Reconciled<C(!new)>(counts: seq<CountReconciliation<C>>, all: seq<C>, actual: C -> nat) {
    && NoDuplicates(Categories(counts))
    && (forall c :: c in all ==> c in Categories(counts))
    && forall r :: r in counts ==> ProofTextOk(r.evidence) && r.discovered == r.emitted == actual(r.category)
  }

  /** What `verify_certified_schema_snapshot` accepts. */
  ghost predicate Verified(c: CertifiedSchemaSnapshot) {
    && CanonicalWellFormed(c.snapshot)
    && c.contractVersion == COMPLETE_CONTRACT_VERSION
    && Normalize(c.snapshot) == c.snapshot
    && ProofTextOk(c.completeness.adapter.name) && ProofTextOk(c.completeness.adapter.version)
    && ProofTextOk(c.completeness.server.name) && ProofTextOk(c.completeness.server.version)
    && ScopeValuesOk(c.completeness.scope.catalogs) && ScopeValuesOk(c.completeness.scope.schemas)
    && CapabilitiesOk(c.snapshot.schema)
    && ChecksOk(c.completeness.capabilityChecks)
    && Reconciled(c.completeness.objectCounts, ALL_KINDS, k => EmittedObjects(c.snapshot, k))
    && Reconciled(c.completeness.relationshipCounts, ALL_RELATIONS, r => EmittedRelations(c.snapshot, r))
  }

  lemma ReconciledAlike<C(!new)>(counts: seq<CountReconciliation<C>>, all: seq<C>, f: C -> nat, g: C -> nat)
    requires forall c :: f(c) == g(c)
    ensures Reconciled(counts, all, f) <==> Reconciled(counts, all, g)
  {
  }

  /** The reconciliation loop: repeats are reported and skipped, missing categories are reported last. */
  method ValidateCounts<C(==, !new)>(counts: seq<CountReconciliation<C>>, all: seq<C>, actual: C -> nat)
    returns (failed: bool)
    ensures failed <==> !Reconciled(counts, all, actual)
  {
    failed := false;
    var seen: set<C> := {};
    for i := 0 to |counts|
      invariant forall c :: c in seen <==> c in Categories(counts[..i])
      invariant !failed <==> CountsAgree(counts[..i], actual)
    {
      var count := counts[i];
      CountsLonger(counts[..i], count, actual);
      PrefixLast(counts, i);
      failed := failed || !ProofTextOk(count.evidence);
      if count.category in seen {
        failed := true;
        continue;
      }
      seen := seen + {count.category};
      failed := failed || count.discovered != count.emitted || count.emitted != actual(count.category);
    }
    WholePrefix(counts);
    for i := 0 to |all|
      invariant !failed <==> CountsAgree(counts, actual) && forall c :: c in all[..i] ==> c in Categories(counts)
    {
      failed := failed || all[i] !in seen;
      PrefixLast(all, i);
    }
    WholePrefix(all);
  }

  ghost predicate CountsAgree<C(!new)>(counts: seq<CountReconciliation<C>>, actual: C -> nat) {
    NoDuplicates(Categories(counts)) && forall r :: r in counts ==>
        ProofTextOk(r.evidence) && r.discovered == r.emitted == actual(r.category)
  }

  lemma CountsLonger<C(!new)>(counts: seq<CountReconciliation<C>>, last: CountReconciliation<C>, actual: C -> nat)
    ensures CountsAgree(counts + [last], actual)
       <==> CountsAgree(counts, actual) && last.category !in Categories(counts)
            && ProofTextOk(last.evidence) && last.discovered == last.emitted == actual(last.category)
    ensures Categories(counts + [last]) == Categories(counts) + [last.category]
  {
    assert Categories(counts + [last]) == Categories(counts) + [last.category];
    OneMore(Categories(counts), last.category);
    assert forall r :: r in counts + [last] <==> r in counts || r == last;
  }

  /** `validate_capability_checks`, with the test that the list is sorted. */
  method ValidateChecks(checks: seq<CapabilityCheck>) returns (failed: bool)
    ensures failed <==> !ChecksOk(checks)
  {
    failed := checks == [];
    var names: set<string> := {};
    for i := 0 to |checks|
      invariant names == set c | c in checks[..i] && !Blank(c.name) :: c.name
      invariant !failed <==> checks != [] && ChecksAgree(checks[..i])
    {
      var check := checks[i];
      ChecksLonger(checks[..i], check);
      PrefixLast(checks, i);
      failed := failed || !ProofTextOk(check.name) || !ProofTextOk(check.evidence);
      if !Blank(check.name) {
        failed := failed || check.name in names;
        names := names + {check.name};
      }
    }
    WholePrefix(checks);
    failed := failed || StableSort(checks, CheckOrder) != checks;
  }

  predicate ChecksAgree(checks: seq<CapabilityCheck>) {
    (forall c :: c in checks ==> ProofTextOk(c.name) && ProofTextOk(c.evidence)) && NoDuplicates(CheckNames(checks))
  }

  lemma ChecksLonger(checks: seq<CapabilityCheck>, last: CapabilityCheck)
    ensures ChecksAgree(checks + [last])
       <==> ChecksAgree(checks) && ProofTextOk(last.name) && ProofTextOk(last.evidence)
            && !exists c :: c in checks && !Blank(c.name) && c.name == last.name
  {
    assert CheckNames(checks + [last]) == CheckNames(checks) + [last.name];
    OneMore(CheckNames(checks), last.name);
    assert forall r :: r in checks + [last] <==> r in checks || r == last;
    if last.name in CheckNames(checks) {
      var i :| 0 <= i < |checks| && CheckNames(checks)[i] == last.name;
      assert checks[i] in checks;
    }
    forall c | c in checks ensures c.name in CheckNames(checks) {
      var i :| 0 <= i < |checks| && checks[i] == c;
      assert CheckNames(checks)[i] == c.name;
    }
  }

  /** Verification accepts exactly the snapshots that satisfy the predicate. */
  method VerifyCertifiedSchemaSnapshot(c: CertifiedSchemaSnapshot) returns (accepted: bool)
    ensures accepted <==> Verified(c)
  {
    var issues := ValidateCanonicalSchemaSnapshot(c.snapshot);
    accepted := issues == [] && c.contractVersion == COMPLETE_CONTRACT_VERSION && Normalize(c.snapshot) == c.snapshot;
    var proof := c.completeness;
    accepted := accepted && ProofTextOk(proof.adapter.name) && ProofTextOk(proof.adapter.version)
                && ProofTextOk(proof.server.name) && ProofTextOk(proof.server.version);
    accepted := accepted && ScopeValuesOk(proof.scope.catalogs) && ScopeValuesOk(proof.scope.schemas)
        && CapabilitiesOk(c.snapshot.schema);
    var checksFailed := ValidateChecks(proof.capabilityChecks);
    var emitted := EmittedObjectCounts(c.snapshot);
    var objectsFailed := ValidateCounts(proof.objectCounts, ALL_KINDS, (k: ObjectKind) => emitted[k]);
    ReconciledAlike(proof.objectCounts, ALL_KINDS, (k: ObjectKind) => emitted[k], k => EmittedObjects(c.snapshot, k));
    var relationsFailed := ValidateCounts(proof.relationshipCounts, ALL_RELATIONS,
                                          r => EmittedRelations(c.snapshot, r));
    accepted := accepted && !checksFailed && !objectsFailed && !relationsFailed;
  }

  // ------------------------------------------------------------ certification

  /** The reconciliations written for a list of categories: those without a discovered count are left out. */
  function Reconciliations<C(==)>(all: seq<C>, discovered: map<C, DiscoveredCount>,
                                  emitted: C -> nat): seq<CountReconciliation<C>> {
    if all == [] then []
    else ReconciliationOf(all[0], discovered, emitted) + Reconciliations(all[1..], discovered, emitted)
  }

  function ReconciliationOf<C(==)>(category: C, discovered: map<C, DiscoveredCount>,
                                   emitted: C -> nat): seq<CountReconciliation<C>> {
    if category in discovered
    then [CountReconciliation(category, discovered[category].count, emitted(category), discovered[category].evidence)]
    else []
  }

  lemma {:induction false} ReconciliationsJoined<C>(a: seq<C>, b: seq<C>, discovered: map<C, DiscoveredCount>,
                                                    emitted: C -> nat)
    ensures Reconciliations(a + b, discovered, emitted) == Reconciliations(a, discovered, emitted)
            + Reconciliations(b, discovered, emitted)
  {
    if a == [] {
      assert a + b == b;
    } else {
      assert (a + b)[1..] == a[1..] + b;
      ReconciliationsJoined(a[1..], b, discovered, emitted);
    }
  }

  lemma {:induction false} ReconciliationsHold<C>(all: seq<C>, discovered: map<C, DiscoveredCount>, emitted: C -> nat,
                                                  counts: seq<CountReconciliation<C>>)
    requires counts == Reconciliations(all, discovered, emitted)
    ensures forall r :: r in counts ==> r.category in all && r.category in discovered
    ensures forall c :: c in all && c in discovered ==>
            CountReconciliation(c, discovered[c].count, emitted(c), discovered[c].evidence) in counts
  {
    if all != [] { ReconciliationsHold(all[1..], discovered, emitted, Reconciliations(all[1..], discovered, emitted)); }
  }

  /** A category whose discovery the certifier rejects. */
  predicate Rejected<C(==)>(category: C, discovered: map<C, DiscoveredCount>, emitted: C -> nat) {
    || category !in discovered
    || !ProofTextOk(discovered[category].evidence)
    || discovered[category].count != emitted(category)
  }

  lemma RejectionShows<C(!new)>(category: C, all: seq<C>, discovered: map<C, DiscoveredCount>, emitted: C -> nat)
    requires category in all && Rejected(category, discovered, emitted)
    ensures !Reconciled(Reconciliations(all, discovered, emitted), all, emitted)
  {
    var counts := Reconciliations(all, discovered, emitted);
    ReconciliationsHold(all, discovered, emitted, counts);
    if category in Categories(counts) {
      var i :| 0 <= i < |counts| && Categories(counts)[i] == category;
      assert counts[i] in counts;
    }
  }

  /** The loop of `certify_schema_snapshot` over the categories of one sort. */
  method ReconcileCounts<C(==, !new)>(all: seq<C>, discovered: map<C, DiscoveredCount>, emitted: C -> nat)
    returns (counts: seq<CountReconciliation<C>>, failed: bool)
    ensures counts == Reconciliations(all, discovered, emitted)
    ensures failed <==> exists c :: c in all && Rejected(c, discovered, emitted)
    ensures failed ==> !Reconciled(counts, all, emitted)
  {
    counts, failed := [], false;
    for i := 0 to |all|
      invariant counts == Reconciliations(all[..i], discovered, emitted)
      invariant !failed <==> forall c :: c in all[..i] ==> !Rejected(c, discovered, emitted)
    {
      var category := all[i];
      ReconciliationsJoined(all[..i], [category], discovered, emitted);
      assert Reconciliations([category], discovered, emitted) == ReconciliationOf(category, discovered, emitted);
      ghost var before, after := all[..i], all[..i + 1];
      assert after == before + [category];
      assert category in after && forall c :: c in before ==> c in after;
      ghost var clean := forall c :: c in before ==> !Rejected(c, discovered, emitted);
      assert (forall c :: c in after ==> !Rejected(c, discovered, emitted))
             <==> clean && !Rejected(category, discovered, emitted);
      if category in discovered {
        var discovery := discovered[category];
        failed := failed || !ProofTextOk(discovery.evidence) || discovery.count != emitted(category);
        counts := counts + [CountReconciliation(category, discovery.count, emitted(category), discovery.evidence)];
      } else {
        failed := true;
      }
    }
    WholePrefix(all);
    if failed {
      ghost var c :| c in all && Rejected(c, discovered, emitted);
      RejectionShows(c, all, discovered, emitted);
    }
  }

  function NormalScope(scope: IntrospectionScope): IntrospectionScope {
    IntrospectionScope(SortedSet(scope.catalogs, ByText), SortedSet(scope.schemas, ByText))
  }

  /** The snapshot that certification puts together before it verifies it. */
  function Assemble(snapshot: CanonicalSchemaSnapshot, adapter: Identity, server: Identity, scope: IntrospectionScope,
                    discovered: DiscoveryCounts, checks: seq<CapabilityCheck>): CertifiedSchemaSnapshot
  {
    var normal := Normalize(snapshot);
    CertifiedSchemaSnapshot(
      COMPLETE_CONTRACT_VERSION, normal,
      CompletenessProof(
        adapter, server, NormalScope(scope),
        Reconciliations(ALL_KINDS, discovered.objects, k => EmittedObjects(normal, k)),
        Reconciliations(ALL_RELATIONS, discovered.relationships, r => EmittedRelations(normal, r)),
        StableSort(checks, CheckOrder)))
  }

  /** The certificate for a snapshot: what is assembled from it, if that is accepted. */
  ghost function Certified(snapshot: CanonicalSchemaSnapshot, adapter: Identity, server: Identity,
                           scope: IntrospectionScope,
                           discovered: DiscoveryCounts, checks: seq<CapabilityCheck>): Option<CertifiedSchemaSnapshot>
  {
    var c := Assemble(snapshot, adapter, server, scope, discovered, checks);
    if Verified(c) then Some(c) else None
  }

  /** `certify_schema_snapshot`: it succeeds exactly when verification accepts the assembled snapshot,
      so its own checks reject nothing that verification would accept. */
  method CertifySchemaSnapshot(snapshot: CanonicalSchemaSnapshot, adapter: Identity, server: Identity,
                               scope: IntrospectionScope,
                               discovered: DiscoveryCounts, checks: seq<CapabilityCheck>)
    returns (certified: Option<CertifiedSchemaSnapshot>)
    ensures certified == Certified(snapshot, adapter, server, scope, discovered, checks)
  {
    var normal := Normalize(snapshot);
    var sortedChecks := StableSort(checks, CheckOrder);
    var issues := ValidateCanonicalSchemaSnapshot(normal);
    var failed := issues != [];
    failed := failed || !ProofTextOk(adapter.name) || !ProofTextOk(adapter.version) || !ProofTextOk(server.name)
        || !ProofTextOk(server.version);
    var normalScope := NormalScope(scope);
    failed := failed || normalScope.catalogs == [] || normalScope.schemas == [];
    var checksFailed := FindUnprovenCheck(sortedChecks);
    var objectCounts, objectsFailed := ReconcileCounts(ALL_KINDS, discovered.objects, k => EmittedObjects(normal, k));
    var relationshipCounts, relationsFailed := ReconcileCounts(ALL_RELATIONS, discovered.relationships,
                                                               r => EmittedRelations(normal, r));
    if failed || checksFailed || objectsFailed || relationsFailed { return None; }
    var assembled := CertifiedSchemaSnapshot(
      COMPLETE_CONTRACT_VERSION, normal,
      CompletenessProof(adapter, server, normalScope, objectCounts, relationshipCounts, sortedChecks));
    var accepted := VerifyCertifiedSchemaSnapshot(assembled);
    return if accepted then Some(assembled) else None;
  }

  method FindUnprovenCheck(checks: seq<CapabilityCheck>) returns (failed: bool)
    ensures failed ==> !ChecksOk(checks)
  {
    failed := checks == [];
    for i := 0 to |checks|
      invariant failed ==> !ChecksOk(checks)
    {
      assert checks[i] in checks;
      failed := failed || !ProofTextOk(checks[i].name) || !ProofTextOk(checks[i].evidence);
    }
  }

  /** Lists with the same items have the same sorted form when the sort key tells the items apart. */
  lemma {:induction false} SortedUnique<T(!new)>(a: seq<T>, b: seq<T>, key: T -> SortKey)
    requires Sorted(a, key) && Sorted(b, key) && multiset(a) == multiset(b)
    requires forall x, y :: key(x) == key(y) ==> x == y
    ensures a == b
  {
    assert |multiset(a)| == |multiset(b)|;
    if a != [] {
      SameFirst(a, b, key);
      SameRest(a, b);
      SortedUnique(a[1..], b[1..], key);
      assert a == [a[0]] + a[1..] && b == [b[0]] + b[1..];
    }
  }

  lemma SameRest<T>(a: seq<T>, b: seq<T>)
    requires a != [] && b != [] && multiset(a) == multiset(b) && a[0] == b[0]
    ensures multiset(a[1..]) == multiset(b[1..])
  {
    assert a == [a[0]] + a[1..] && b == [b[0]] + b[1..];
    assert multiset(a[1..]) == multiset(a) - multiset{a[0]} == multiset(b[1..]);
  }

  lemma SameFirst<T(!new)>(a: seq<T>, b: seq<T>, key: T -> SortKey)
    requires a != [] && b != [] && Sorted(a, key) && Sorted(b, key) && multiset(a) == multiset(b)
    requires forall x, y :: key(x) == key(y) ==> x == y
    ensures a[0] == b[0]
  {
    assert a[0] in multiset(b) && b[0] in multiset(a);
    LessTotal(key(a[0]), key(b[0]));
  }

  lemma ChecksCanonical(a: seq<CapabilityCheck>, b: seq<CapabilityCheck>)
    requires multiset(a) == multiset(b)
    ensures StableSort(a, CheckOrder) == StableSort(b, CheckOrder)
  {
    StableSortKeeps(a, CheckOrder);
    StableSortKeeps(b, CheckOrder);
    forall x: CapabilityCheck, y: CapabilityCheck | CheckOrder(x) == CheckOrder(y) ensures x == y {
      assert [x.name, x.evidence][0] == [y.name, y.evidence][0] && [x.name, x.evidence][1] == [y.name, y.evidence][1];
    }
    SortedUnique(StableSort(a, CheckOrder), StableSort(b, CheckOrder), CheckOrder);
  }

  /** Neither the order of the snapshot's collections nor that of the capability checks, nor the order
      or repeats of the scope values, changes what is certified. */
  lemma CertificationIgnoresOrder(a: CanonicalSchemaSnapshot, b: CanonicalSchemaSnapshot, adapter: Identity,
                                  server: Identity,
                                  scopeA: IntrospectionScope, scopeB: IntrospectionScope, discovered: DiscoveryCounts,
                                  checksA: seq<CapabilityCheck>, checksB: seq<CapabilityCheck>)
    requires Equivalent(a, b)
    requires SameSet(scopeA.catalogs, scopeB.catalogs) && SameSet(scopeA.schemas, scopeB.schemas)
    requires multiset(checksA) == multiset(checksB)
    ensures Assemble(a, adapter, server, scopeA, discovered, checksA)
            == Assemble(b, adapter, server, scopeB, discovered, checksB)
  {
    NormalizeCanonical(a, b);
    TextListsCanonical(scopeA.catalogs, scopeB.catalogs);
    TextListsCanonical(scopeA.schemas, scopeB.schemas);
    ChecksCanonical(checksA, checksB);
  }

  // ------------------------------------------------ what a certificate proves

  /** Sum of the emitted counts of a proof. */
  function EmittedTotal<C>(counts: seq<CountReconciliation<C>>): nat {
    if counts == [] then 0 else counts[0].emitted + EmittedTotal(counts[1..])
  }

  lemma {:induction false} EmittedTotalIsSum<C(!new)>(counts: seq<CountReconciliation<C>>, f: C -> nat)
    requires forall r :: r in counts ==> r.emitted == f(r.category)
    ensures EmittedTotal(counts) == SumOf(Categories(counts), f)
  {
    if counts != [] {
      EmittedTotalIsSum(counts[1..], f);
      assert Categories(counts)[1..] == Categories(counts[1..]);
    }
  }

  /** A list that names every category once sums like the full list. */
  lemma ReconciledTotal<C(!new)>(counts: seq<CountReconciliation<C>>, all: seq<C>, actual: C -> nat)
    requires Reconciled(counts, all, actual) && NoDuplicates(all) && forall c: C :: c in all
    ensures EmittedTotal(counts) == SumOf(all, actual) && |counts| == |all|
  {
    EmittedTotalIsSum(counts, actual);
    SameItemsOnce(Categories(counts), all);
    SumOfPermuted(Categories(counts), all, actual);
    assert |multiset(Categories(counts))| == |multiset(all)|;
  }

  /** An accepted proof has the 26 object and 16 relationship categories, each once, and its object
      total is the number of objects in the snapshot. */
  lemma VerifiedObjectTotal(c: CertifiedSchemaSnapshot)
    requires Verified(c)
    ensures |c.completeness.objectCounts| == 26 && |c.completeness.relationshipCounts| == 16
    ensures EmittedTotal(c.completeness.objectCounts) == |AllEntries(c.snapshot)|
  {
    KindsListedOnce();
    RelationsListedOnce();
    ReconciledTotal(c.completeness.objectCounts, ALL_KINDS, k => EmittedObjects(c.snapshot, k));
    ReconciledTotal(c.completeness.relationshipCounts, ALL_RELATIONS, r => EmittedRelations(c.snapshot, r));
    SumOfCounts(ALL_KINDS, AllEntries(c.snapshot), k => EmittedObjects(c.snapshot, k));
  }

  /** All relationships of a snapshot, category by category. */
  function TypedTotal(s: SchemaSnapshot): nat {
    |s.schemas| + |s.tables| + |s.columns|
    + (|s.constraints| + SumOf(s.constraints, OtherColumns) + SumOf(s.constraints, ForeignKeyColumns))
    + (|s.indexes| + SumOf(s.indexes, IndexWidth)) + (|s.views| + SumOf(s.views, ViewWidth))
    + (|s.triggers| + SumOf(s.triggers, RunsRoutine)) + (|s.routines| + SumOf(s.routines, RoutineWidth))
  }

  function RelationTotal(s: CanonicalSchemaSnapshot): nat {
    TypedTotal(s.schema) + (SumOf(s.metadata.objects, HasParent) + |s.metadata.relationships|)
  }

  lemma VerifiedRelationTotal(c: CertifiedSchemaSnapshot)
    requires Verified(c)
    ensures EmittedTotal(c.completeness.relationshipCounts) == RelationTotal(c.snapshot)
  {
    TotalOfRelations(c.completeness.relationshipCounts, c.snapshot, r => EmittedRelations(c.snapshot, r));
  }

  lemma TotalOfRelations(counts: seq<CountReconciliation<RelationshipCategory>>, s: CanonicalSchemaSnapshot,
                         f: RelationshipCategory -> nat)
    requires Reconciled(counts, ALL_RELATIONS, f) && forall r :: f(r) == EmittedRelations(s, r)
    ensures EmittedTotal(counts) == RelationTotal(s)
  {
    assert EmittedTotal(counts) == SumOf(ALL_RELATIONS, f) by {
      RelationsListedOnce();
      ReconciledTotal(counts, ALL_RELATIONS, f);
    }
    RelationsWrittenOut(s, f);
  }

  lemma RelationsWrittenOut(s: CanonicalSchemaSnapshot, f: RelationshipCategory -> nat)
    requires forall r :: f(r) == EmittedRelations(s, r)
    ensures SumOf(ALL_RELATIONS, f) == RelationTotal(s)
  {
    hide SumOf;
    SumOfRelations(f);
  }

  /** The sum over all categories written out. */
  lemma SumOfRelations(f: RelationshipCategory -> nat)
    ensures SumOf(ALL_RELATIONS, f)
         == f(DatabaseHasSchema) + f(SchemaHasTable) + f(TableHasColumn) + f(TableHasConstraint) + f(ConstraintColumn)
            + f(ForeignKeyColumnPair) + f(TableHasIndex) + f(IndexColumn) + f(SchemaHasView) + f(ViewDependency)
            + f(TriggerTarget)
            + f(TriggerRoutine) + f(SchemaHasRoutine) + f(RoutineDependency) + f(MetadataParent) + f(MetadataRelation)
  {
    var last := [MetadataParent] + [MetadataRelation];
    SumOfCons(MetadataParent, [MetadataRelation], f);
    SumOfCons(MetadataRelation, [], f);
    assert [MetadataRelation] + [] == [MetadataRelation];
    var third := [TriggerTarget] + ([TriggerRoutine] + ([SchemaHasRoutine] + ([RoutineDependency] + last)));
    SumOfFour(TriggerTarget, TriggerRoutine, SchemaHasRoutine, RoutineDependency, last, f);
    var second := [TableHasIndex] + ([IndexColumn] + ([SchemaHasView] + ([ViewDependency] + third)));
    SumOfFour(TableHasIndex, IndexColumn, SchemaHasView, ViewDependency, third, f);
    SumOfCons(ForeignKeyColumnPair, second, f);
    SumOfCons(ConstraintColumn, [ForeignKeyColumnPair] + second, f);
    SumOfFour(DatabaseHasSchema, SchemaHasTable, TableHasColumn, TableHasConstraint, [ConstraintColumn]
              + ([ForeignKeyColumnPair] + second), f);
  }

  lemma SumOfFour(a: RelationshipCategory, b: RelationshipCategory, c: RelationshipCategory, d: RelationshipCategory,
                  rest: seq<RelationshipCategory>, f: RelationshipCategory -> nat)
    ensures SumOf([a] + ([b] + ([c] + ([d] + rest))), f) == f(a) + f(b) + f(c) + f(d) + SumOf(rest, f)
  {
    SumOfCons(d, rest, f);
    SumOfCons(c, [d] + rest, f);
    SumOfCons(b, [c] + ([d] + rest), f);
    SumOfCons(a, [b] + ([c] + ([d] + rest)), f);
  }
}
