/** Snapshots the validators accept although their graph has fewer edges than their proof promises:
    one where two edges share a text key, one where a dependency has no edge
    (graph_builder.rs, canonical_validation.rs). */
module ProjectionMismatches {
  import opened Wrappers
  import opened Lists
  import opened ObjectKeys
  import opened SchemaModel
  import opened TextRules
  import opened SnapshotRules
  import opened CanonicalRules
  import opened Canonical
  import opened Ordering
  import opened Certification
  import opened NormalForms
  import opened SampleSnapshots
  import opened Projection
  import opened ProjectionCounts
  import opened EdgeTexts
  import opened GraphBuilder
  import opened AliasDiff

  /** Relationships that differ but share a text key make the counts differ. */
  lemma CollisionMismatches(s: CanonicalSchemaSnapshot, a: MetadataRelationship, b: MetadataRelationship)
    requires a in s.metadata.relationships && b in s.metadata.relationships && a != b
    requires EdgeKeyText(RelationshipEdge(a)) == EdgeKeyText(RelationshipEdge(b))
    ensures !Projects(s)
  {
    hide EdgeKeyText, NoDuplicates, EdgePlan;
    PlanItems(s);
    var plan, x, y := EdgePlan(s), RelationshipEdge(a), RelationshipEdge(b);
    RelationshipPlanned(s.metadata.relationships, a);
    RelationshipPlanned(s.metadata.relationships, b);
    assert x in MetadataEdges(s.metadata) && y in MetadataEdges(s.metadata);
    assert x in plan && y in plan;
    SharedTextRepeats(plan, x, y);
  }

  lemma SharedTextRepeats(plan: seq<PlannedEdge>, x: PlannedEdge, y: PlannedEdge)
    requires x in plan && y in plan && x != y && EdgeKeyText(x) == EdgeKeyText(y)
    ensures !NoDuplicates(Texts(plan))
  {
    hide EdgeKeyText;
    var i :| 0 <= i < |plan| && plan[i] == x;
    var j :| 0 <= j < |plan| && plan[j] == y;
    assert Texts(plan)[i] == Texts(plan)[j];
  }

  lemma RelationshipPlanned(relationships: seq<MetadataRelationship>, r: MetadataRelationship)
    requires r in relationships
    ensures RelationshipEdge(r) in MapSeq(RelationshipEdge, relationships)
  {
    var i :| 0 <= i < |relationships| && relationships[i] == r;
    assert MapSeq(RelationshipEdge, relationships)[i] == RelationshipEdge(r);
  }

  // ---------------------------------------------------------------- the texts

  lemma NotReserved()
    ensures forall part :: part in ["s", "routine", "table", "foo"] ==> !Reserved(part)
  {
  }

  /** The routine is printed like the table, one part further to the right. */
  lemma TextsShifted()
    ensures Print(ROUTINE) == "s" + ":" + Print(TABLE)
  {
    NotReserved();
    var parts := Parts(TABLE);
    assert parts == ["s", "s", "s", "routine", "table", "foo"];
    assert Parts(ROUTINE) == ["s"] + parts;
    assert (["s"] + parts)[1..] == parts;
    assert forall part :: part in parts ==> part in ["s", "routine", "table", "foo"];
    assert forall part :: part in ["s"] + parts ==> part in ["s", "routine", "table", "foo"];
    JoinStep("s", parts);
  }

  lemma JoinStep(head: string, rest: seq<string>)
    requires rest != []
    ensures Join([head] + rest) == head + ":" + Join(rest)
  {
    assert ([head] + rest)[1..] == rest;
  }

  lemma SameText(p: string, t: string)
    ensures "EXTENSION:" + "x" + ":" + ("s" + ":" + p) + "->" + t == "EXTENSION:" + "x:s" + ":" + p + "->" + t
  {
  }

  lemma TextsCollide()
    ensures EdgeKeyText(RelationshipEdge(FROM_ROUTINE)) == EdgeKeyText(RelationshipEdge(FROM_TABLE))
  {
    hide Print;
    TextsShifted();
    SameText(Print(TABLE), Print(OWNER));
  }

  // ---------------------------------------------------------------- the results

  lemma NormalRelationships(s: CanonicalSchemaSnapshot, r: MetadataRelationship)
    ensures r in Normalize(s).metadata.relationships <==> r in s.metadata.relationships
  {
    StableSortElements(s.metadata.relationships, RelationshipOrder, Normalize(s).metadata.relationships);
  }

  lemma NormalSkips(s: CanonicalSchemaSnapshot)
    ensures NothingSkipped(Normalize(s).schema) <==> NothingSkipped(s.schema)
  {
    hide StableSort, SortedSet;
    var n, views, routines := Normalize(s).schema, StableSort(s.schema.views, ViewOrder),
        StableSort(s.schema.routines, RoutineOrder);
    StableSortElements(s.schema.views, ViewOrder, views);
    StableSortElements(s.schema.routines, RoutineOrder, routines);
    forall v | v in s.schema.views ensures NormalView(v) in n.views {
      var i :| 0 <= i < |views| && views[i] == v;
      assert n.views[i] == NormalView(v);
    }
    forall r | r in s.schema.routines ensures NormalRoutine(r) in n.routines {
      var i :| 0 <= i < |routines| && routines[i] == r;
      assert n.routines[i] == NormalRoutine(r);
    }
    forall v | v in n.views ensures exists w :: w in s.schema.views && v == NormalView(w) {
      var i :| 0 <= i < |n.views| && n.views[i] == v;
      assert views[i] in s.schema.views;
    }
    forall r | r in n.routines ensures exists x :: x in s.schema.routines && r == NormalRoutine(x) {
      var i :| 0 <= i < |n.routines| && n.routines[i] == r;
      assert routines[i] in s.schema.routines;
    }
    forall v: ViewObject ensures forall d :: d in NormalView(v).dependsOn <==> d in v.dependsOn {
      KeySetNormal(v.dependsOn);
    }
    forall r: RoutineObject ensures forall d :: d in NormalRoutine(r).dependsOn <==> d in r.dependsOn {
      KeySetNormal(r.dependsOn);
    }
  }

  /** Inserting a certificate whose snapshot does not project ends in a mismatch unless the database fails. */
  ghost predicate EndsInMismatch(c: CertifiedSchemaSnapshot) {
    forall r :: CertifiedOutcome(c, r, true) ==> r.Err? && r.error.ProjectionMismatch?
  }

  /** There is a verified certificate in which nothing is skipped and yet two edges are written to one
      row, because an extension name may hold the character that separates the parts of a text key. */
  lemma CollidingTextsMismatch()
    ensures CanonicalWellFormed(COLLIDING) && NothingSkipped(COLLIDING.schema) && !Projects(COLLIDING)
    ensures var c := Certificate(COLLIDING);
            Verified(c) && NothingSkipped(c.snapshot.schema) && !Projects(c.snapshot) && EndsInMismatch(c)
  {
    hide EdgeKeyText, CanonicalWellFormed, Projects, Verified, Certificate, Normalize;
    SampleWellFormed(COLLIDING);
    TextsCollide();
    CollisionMismatches(COLLIDING, FROM_ROUTINE, FROM_TABLE);
    SampleCertified(COLLIDING);
    NormalSkips(COLLIDING);
    NormalRelationships(COLLIDING, FROM_ROUTINE);
    NormalRelationships(COLLIDING, FROM_TABLE);
    CollisionMismatches(Normalize(COLLIDING), FROM_ROUTINE, FROM_TABLE);
  }

  /** There is a verified certificate in which a view depends on a routine, for which no edge is written. */
  lemma SkippedDependencyMismatches()
    ensures CanonicalWellFormed(SKIPPING) && !NothingSkipped(SKIPPING.schema) && !Projects(SKIPPING)
    ensures var c := Certificate(SKIPPING);
            Verified(c) && !NothingSkipped(c.snapshot.schema) && !Projects(c.snapshot) && EndsInMismatch(c)
  {
    hide CanonicalWellFormed, EdgePlan, Verified, Certificate, Normalize;
    SampleWellFormed(SKIPPING);
    var v := SKIPPING.schema.views[0];
    assert v in SKIPPING.schema.views && ROUTINE in v.dependsOn;
    SampleCertified(SKIPPING);
    NormalSkips(SKIPPING);
  }
}
