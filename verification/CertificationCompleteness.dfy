/** Exactly when a discovery is certified (certification.rs). */
module CertificationCompleteness {
  import opened Wrappers
  import opened Lists
  import opened Ordering
  import opened ObjectKeys
  import opened SchemaModel
  import opened TextRules
  import opened SnapshotRules
  import opened CanonicalRules
  import opened Canonical
  import opened Certification
  import opened NormalForms

  lemma {:induction false} ReconciliationCategories<C>(all: seq<C>, discovered: map<C, DiscoveredCount>,
                                                       emitted: C -> nat)
    requires NoDuplicates(all)
    ensures NoDuplicates(Categories(Reconciliations(all, discovered, emitted)))
    ensures forall c :: c in Categories(Reconciliations(all, discovered, emitted)) ==> c in all
  {
    if all != [] {
      var first, rest := ReconciliationOf(all[0], discovered, emitted), Reconciliations(all[1..], discovered, emitted);
      forall i, j | 0 <= i < j < |all[1..]| ensures all[1..][i] != all[1..][j] { assert all[i + 1] != all[j + 1]; }
      ReconciliationCategories(all[1..], discovered, emitted);
      forall k | k in all[1..] ensures k != all[0] {
        var i :| 0 <= i < |all[1..]| && all[1..][i] == k;
        assert all[0] != all[i + 1];
      }
      if all[0] in discovered {
        assert Categories(first + rest) == [all[0]] + Categories(rest);
        FirstApart(all[0], Categories(rest), all[1..]);
      } else {
        assert first + rest == rest;
      }
    }
  }

  lemma FirstApart<C>(first: C, rest: seq<C>, others: seq<C>)
    requires NoDuplicates(rest) && first !in others && forall c :: c in rest ==> c in others
    ensures NoDuplicates([first] + rest)
  {
    var all := [first] + rest;
    forall i, j | 0 <= i < j < |all| ensures all[i] != all[j] { assert all[j] == rest[j - 1] && rest[j - 1] in others; }
  }

  lemma ReconciliationValues<C>(all: seq<C>, discovered: map<C, DiscoveredCount>, emitted: C -> nat)
    ensures forall r :: r in Reconciliations(all, discovered, emitted) ==>
              r.category in discovered && r.discovered == discovered[r.category].count
              && r.emitted == emitted(r.category) && r.evidence == discovered[r.category].evidence
  {
    if all != [] { ReconciliationValues(all[1..], discovered, emitted); }
  }

  /** The counts a certifier puts down reconcile exactly when it rejects no category. */
  lemma ReconciledWhen<C(!new)>(all: seq<C>, discovered: map<C, DiscoveredCount>, emitted: C -> nat)
    requires NoDuplicates(all) && forall c: C :: c in all
    ensures Reconciled(Reconciliations(all, discovered, emitted), all, emitted)
       <==> forall c: C :: !Rejected(c, discovered, emitted)
  {
    var counts := Reconciliations(all, discovered, emitted);
    ReconciliationCategories(all, discovered, emitted);
    ReconciliationValues(all, discovered, emitted);
    ReconciliationsHold(all, discovered, emitted, counts);
    if forall c: C :: !Rejected(c, discovered, emitted) {
      forall c | c in all ensures c in Categories(counts) {
        assert !Rejected(c, discovered, emitted);
        var r := CountReconciliation(c, discovered[c].count, emitted(c), discovered[c].evidence);
        var i :| 0 <= i < |counts| && counts[i] == r;
        assert Categories(counts)[i] == c;
      }
      forall r | r in counts ensures ProofTextOk(r.evidence) && r.discovered == r.emitted == emitted(r.category) {
        assert !Rejected(r.category, discovered, emitted);
      }
    } else {
      var c :| Rejected(c, discovered, emitted);
      RejectionShows(c, all, discovered, emitted);
    }
  }

  predicate CountIs(discovered: DiscoveredCount, actual: nat) {
    ProofTextOk(discovered.evidence) && discovered.count == actual
  }

  /** Every category of both sorts is discovered, with evidence and the number the snapshot holds. */
  ghost predicate Honest(discovered: DiscoveryCounts, s: CanonicalSchemaSnapshot) {
    && (forall k: ObjectKind :: k in discovered.objects && CountIs(discovered.objects[k], EmittedObjects(s, k)))
    && (forall r: RelationshipCategory ::
          r in discovered.relationships && CountIs(discovered.relationships[r], EmittedRelations(s, r)))
  }

  /** What certification asks of a discovery, once the snapshot is normalised. */
  ghost predicate Certifiable(normal: CanonicalSchemaSnapshot, adapter: Identity, server: Identity,
                              scope: IntrospectionScope, discovered: DiscoveryCounts, checks: seq<CapabilityCheck>) {
    && CanonicalWellFormed(normal) && CapabilitiesOk(normal.schema)
    && ProofTextOk(adapter.name) && ProofTextOk(adapter.version)
    && ProofTextOk(server.name) && ProofTextOk(server.version)
    && ScopeValuesOk(NormalScope(scope).catalogs) && ScopeValuesOk(NormalScope(scope).schemas)
    && ChecksOk(StableSort(checks, CheckOrder)) && Honest(discovered, normal)
  }

  lemma ObjectsReconciled(c: CertifiedSchemaSnapshot, discovered: DiscoveryCounts, f: ObjectKind -> nat)
    requires c.completeness.objectCounts == Reconciliations(ALL_KINDS, discovered.objects, f)
    requires forall k: ObjectKind :: f(k) == EmittedObjects(c.snapshot, k)
    ensures Reconciled(c.completeness.objectCounts, ALL_KINDS, k => EmittedObjects(c.snapshot, k))
       <==> forall k: ObjectKind ::
              k in discovered.objects && CountIs(discovered.objects[k], EmittedObjects(c.snapshot, k))
  {
    hide EmittedObjects, Reconciled, Reconciliations, ProofTextOk;
    KindsListedOnce();
    ReconciledWhen(ALL_KINDS, discovered.objects, f);
    ReconciledAlike(c.completeness.objectCounts, ALL_KINDS, f, k => EmittedObjects(c.snapshot, k));
    assert forall k: ObjectKind :: !Rejected(k, discovered.objects, f)
             <==> k in discovered.objects && CountIs(discovered.objects[k], EmittedObjects(c.snapshot, k));
  }

  lemma RelationsReconciled(c: CertifiedSchemaSnapshot, discovered: DiscoveryCounts, f: RelationshipCategory -> nat)
    requires c.completeness.relationshipCounts == Reconciliations(ALL_RELATIONS, discovered.relationships, f)
    requires forall r: RelationshipCategory :: f(r) == EmittedRelations(c.snapshot, r)
    ensures Reconciled(c.completeness.relationshipCounts, ALL_RELATIONS, r => EmittedRelations(c.snapshot, r))
       <==> forall r: RelationshipCategory ::
              r in discovered.relationships && CountIs(discovered.relationships[r], EmittedRelations(c.snapshot, r))
  {
    hide EmittedRelations, Reconciled, Reconciliations, ProofTextOk;
    RelationsListedOnce();
    ReconciledWhen(ALL_RELATIONS, discovered.relationships, f);
    ReconciledAlike(c.completeness.relationshipCounts, ALL_RELATIONS, f, r => EmittedRelations(c.snapshot, r));
    assert forall r: RelationshipCategory :: !Rejected(r, discovered.relationships, f)
             <==> r in discovered.relationships
                  && CountIs(discovered.relationships[r], EmittedRelations(c.snapshot, r));
  }

  /** Certification succeeds exactly for the snapshots the validator accepts in normal form whose
      capabilities, identities, scope and checks are in order and whose discovered counts are those of
      the snapshot. */
  lemma CertifiedExactlyWhen(s: CanonicalSchemaSnapshot, adapter: Identity, server: Identity, scope: IntrospectionScope,
                             discovered: DiscoveryCounts, checks: seq<CapabilityCheck>)
    ensures Certified(s, adapter, server, scope, discovered, checks).Some?
       <==> Certifiable(Normalize(s), adapter, server, scope, discovered, checks)
  {
    hide CanonicalWellFormed, Normalize, CapabilitiesOk, ScopeValuesOk, ChecksOk, ProofTextOk, Reconciled,
         Reconciliations, EmittedObjects, EmittedRelations, NormalScope, StableSort, CountIs;
    var normal := Normalize(s);
    var c := Assemble(s, adapter, server, scope, discovered, checks);
    NormalizeIdempotent(s);
    ObjectsReconciled(c, discovered, k => EmittedObjects(normal, k));
    RelationsReconciled(c, discovered, r => EmittedRelations(normal, r));
  }

  /** An honest discovery of an accepted snapshot is certified whatever order it is listed in, as the
      normal form of an accepted snapshot is accepted. */
  lemma HonestIsCertified(s: CanonicalSchemaSnapshot, adapter: Identity, server: Identity, scope: IntrospectionScope,
                          discovered: DiscoveryCounts, checks: seq<CapabilityCheck>)
    requires CanonicalWellFormed(s) && CapabilitiesOk(Normalize(s).schema) && Honest(discovered, Normalize(s))
    requires ProofTextOk(adapter.name) && ProofTextOk(adapter.version)
    requires ProofTextOk(server.name) && ProofTextOk(server.version)
    requires ScopeValuesOk(NormalScope(scope).catalogs) && ScopeValuesOk(NormalScope(scope).schemas)
    requires ChecksOk(StableSort(checks, CheckOrder))
    ensures Verified(Assemble(s, adapter, server, scope, discovered, checks))
  {
    hide CanonicalWellFormed, Normalize, CapabilitiesOk, ScopeValuesOk, ChecksOk, ProofTextOk, Honest, NormalScope,
         StableSort, Verified, Assemble;
    NormalizeKeepsWellFormed(s);
    CertifiedExactlyWhen(s, adapter, server, scope, discovered, checks);
  }

  /** A certificate is made out for the snapshot in normal form, under the given identities, scope and
      checks, and records for every category the number discovered with its evidence. */
  lemma CertificateTells(s: CanonicalSchemaSnapshot, adapter: Identity, server: Identity, scope: IntrospectionScope,
                         discovered: DiscoveryCounts, checks: seq<CapabilityCheck>, c: CertifiedSchemaSnapshot)
    requires Certified(s, adapter, server, scope, discovered, checks) == Some(c)
    ensures c.contractVersion == 2 && c.snapshot == Normalize(s)
    ensures c.completeness.adapter == adapter && c.completeness.server == server
    ensures Arrangement(c.completeness.scope.catalogs, scope.catalogs)
            && Arrangement(c.completeness.scope.schemas, scope.schemas)
    ensures multiset(c.completeness.capabilityChecks) == multiset(checks)
    ensures forall i, j :: 0 <= i < j < |c.completeness.capabilityChecks| ==>
              NotAfter(c.completeness.capabilityChecks[i], c.completeness.capabilityChecks[j])
    ensures forall k: ObjectKind :: k in discovered.objects
              && Recorded(k, discovered.objects[k]) in c.completeness.objectCounts
    ensures forall r: RelationshipCategory :: r in discovered.relationships
              && Recorded(r, discovered.relationships[r]) in c.completeness.relationshipCounts
  {
    hide CanonicalWellFormed, Normalize, CapabilitiesOk, ScopeValuesOk, ChecksOk, ProofTextOk, Reconciled,
        EmittedObjects,
         Reconciliations, EmittedRelations, SortedSet, StableSort;
    var normal := Normalize(s);
    CertifiedExactlyWhen(s, adapter, server, scope, discovered, checks);
    TextsArranged(scope.catalogs);
    TextsArranged(scope.schemas);
    ChecksArranged(checks);
    CountsRecorded(ALL_KINDS, discovered.objects, k => EmittedObjects(normal, k), c.completeness.objectCounts) by {
      KindsListedOnce();
    }
    CountsRecorded(ALL_RELATIONS, discovered.relationships, r => EmittedRelations(normal, r),
                   c.completeness.relationshipCounts) by {
      RelationsListedOnce();
    }
  }

  /** A category with the number found and emitted, which are one. */
  function Recorded<C>(category: C, found: DiscoveredCount): CountReconciliation<C> {
    CountReconciliation(category, found.count, found.count, found.evidence)
  }

  /** The same texts, each once and in order. */
  ghost predicate Arrangement(texts: seq<string>, given: seq<string>) {
    StrictlySorted(texts, ByText) && forall text :: text in texts <==> text in given
  }

  /** Ordered by name, then by evidence. */
  ghost predicate NotAfter(a: CapabilityCheck, b: CapabilityCheck) {
    !TextLess(b.name, a.name) && (a.name == b.name ==> !TextLess(b.evidence, a.evidence))
  }

  lemma TextsArranged(texts: seq<string>)
    ensures Arrangement(SortedSet(texts, ByText), texts)
  {
    forall x, y | x in texts && y in texts && ByText(x) == ByText(y) ensures x == y { assert [x][0] == [y][0]; }
    SortedSetTold(texts, ByText);
  }

  lemma SortedSetTold<T>(items: seq<T>, key: T -> SortKey)
    requires forall x, y :: x in items && y in items && key(x) == key(y) ==> x == y
    ensures StrictlySorted(SortedSet(items, key), key) && forall x :: x in SortedSet(items, key) <==> x in items
  {
    SortDedup(items, key, (x: T) => x, SortedSet(items, key));
  }

  lemma ChecksArranged(checks: seq<CapabilityCheck>)
    ensures var sorted := StableSort(checks, CheckOrder);
            && multiset(sorted) == multiset(checks)
            && forall i, j :: 0 <= i < j < |sorted| ==> NotAfter(sorted[i], sorted[j])
  {
    StableSortKeeps(checks, CheckOrder);
    var sorted := StableSort(checks, CheckOrder);
    forall i, j | 0 <= i < j < |sorted| ensures NotAfter(sorted[i], sorted[j]) { NotAfterWhen(sorted[i], sorted[j]); }
  }

  lemma NotAfterWhen(a: CapabilityCheck, b: CapabilityCheck)
    requires !Less(CheckOrder(b), CheckOrder(a))
    ensures NotAfter(a, b)
  {
    if !NotAfter(a, b) { ChecksLess(b, a); }
  }

  lemma ChecksLess(a: CapabilityCheck, b: CapabilityCheck)
    requires TextLess(a.name, b.name) || (a.name == b.name && TextLess(a.evidence, b.evidence))
    ensures Less(CheckOrder(a), CheckOrder(b))
  {
    var x, y := [a.name] + [a.evidence], [b.name] + [b.evidence];
    assert CheckOrder(a).texts == x && CheckOrder(b).texts == y;
    assert x[1..] == [a.evidence] && y[1..] == [b.evidence];
    assert TextLess(a.evidence, b.evidence) ==> TextsLess([a.evidence], [b.evidence]);
  }

  lemma CountsRecorded<C(!new)>(all: seq<C>, discovered: map<C, DiscoveredCount>, emitted: C -> nat,
                                counts: seq<CountReconciliation<C>>)
    requires counts == Reconciliations(all, discovered, emitted) && forall k: C :: k in all
    requires forall k: C :: k in discovered && CountIs(discovered[k], emitted(k))
    ensures forall k: C :: k in discovered && Recorded(k, discovered[k]) in counts
  {
    ReconciliationsHold(all, discovered, emitted, counts);
    forall k: C ensures k in discovered && Recorded(k, discovered[k]) in counts { assert k in all; }
  }
}
