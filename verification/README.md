# The schema graph core, verified

A Dafny model of the schema-graph core of a database metadata service (`database-memory-core`) and of
the inventory index of its command line (`database-memory-cli`), with proofs of what they promise. The
service introspects a database into a *snapshot*, validates and certifies it, projects it to a graph of
nodes and edges kept in SQLite, and answers questions from that graph: impact of a change, paths between
objects, general queries, differences between snapshots, descriptions of tables.

The modules follow the program:

- `ObjectKeys`, `Ordering`, `Lists`, `SchemaModel`, `TextRules`: stable keys with their printer and parser,
  SQL and stable sort orders, the snapshot values.
- `Canonical`, `NormalForms`, `SnapshotRules`, `SnapshotValidation`, `CanonicalRules`, `Certification`,
  `CertificationOrder`, `CertificationCompleteness`, `CategoryCounts`: the normal form, both validators against
  a declarative notion of well-formedness, certification, and what its counts count.
- `GraphModel`, `EdgeFetch`, `Reachability`, `BreadthFirst`, `GraphSearch`, `FollowedHops`, `ImpactAnalysis`,
  `GraphQuery`, `PathSearch`, `TriedPaths`, `RelationshipTrace`: bounded edge fetching and the traversals with
  their budgets, against distances, simple paths and the edges the budgets pay for.
- `Projection`, `ProjectionCounts`, `ProjectionClosure`, `EdgeTexts`, `ProjectionMismatches`, `GraphStore`,
  `GraphBuilder`, `StoredRelations`, `StoredObjects`, `IndexRuns`: what is written for a snapshot and what the
  rows say of it, the store with its foreign keys, cascades and transactions, and runs of index attempts with
  statements that fail.
- `JsonPayload`, `PayloadContents`, `SchemaDiff`, `ComparedRows`, `BoundedDiff`, `AliasRename`, `AliasDiff`,
  `AliasValidity`, `AliasExactness`: the schema diff, what its lists say of the stored rows, and when it is
  blind to the connection alias.
- `TableDescriptions`, `GraphDescription`, `Inventory`, `InventoryFacts`, `InventoryAgreement`,
  `InventoryDependents`, `InventoryTheorem`, `DescriptionConditions`, `DescriptionContents`,
  `DependentContents`, `StoredDescriptions`: a table described from the stored graph and from the snapshot,
  when the two agree, and what they say of the snapshot's objects.
- `SampleSnapshots`, `EmptySignatures`: concrete certified snapshots on which a promise fails.

Code that changes things step by step is imperative here too: the queues, visited sets and budgets of the
traversals, the validator with its registry and issues, the store with its tables, the inventory index with
its maps. Each such method is proved against a function or predicate, and the laws are lemmas about those.
`dafny verify dfyconfig.toml` checks everything.

## Assumptions

- Rolling back a transaction restores the state saved at its begin. Any other statement may fail at any time:
  a fixed but arbitrary function says which ones do.
- The text rules of the validators (blank, control characters, sizes in bytes) are the functions of
  `TextRules`; only their values matter to the proofs.
- The graph theorems hold for every graph whose rows lie under their own keys.

## Findings

Four promises hold only under a condition, and it is proved which one.

- *Keys survive printing and parsing* fails exactly for keys with an empty component, or with the source kind
  `v2` and no reserved character in any component (`ObjectKeys.ParsePrint`). Accepted texts can lead there:
  `ObjectKeys.VersionMarkAsSourceKind` is the family of keys that can be read from text but whose printed
  form is refused. The validators accept an empty sub-object, and the PostgreSQL adapter gives one to every
  routine without arguments. The next two findings follow from that.
- *The two descriptions of a table agree* exactly when the printed keys of the table and of its dependents are
  read back as what they are (`InventoryTheorem.DescribeBothWays`). For a source kind other than `v2` this
  means that no routine reading the table has an empty signature and no trigger of it an empty name; for any
  other table `describe_table` fails while the inventory index answers
  (`DescriptionConditions.DescriptionsAgreeWhen`). `EmptySignatures.WalkMissesTable` is a certified snapshot
  for which this happens.
- *The diff ignores the connection alias* exactly when no object has a key with an empty component, again for
  a source kind other than `v2` (`AliasExactness.AliasInvisibleWhen`, `AliasExactness.AliasDiffWhen`). A
  routine without arguments is reported as removed and added under another alias
  (`SchemaDiff.EmptyPartsKeepAliases`, with the snapshot of `EmptySignatures.AliasShowsRoutine`). With the
  source kind `v2` the alias also stays in keys without a sub-object (`SchemaDiff.UnreadableKeysKeepAliases`).
- *The edge count differs from the proof only when a dependency was skipped* fails when two different edges
  get the same text key, for names and extension names may hold the separators. The count agrees exactly when
  no dependency was skipped and no two texts collide (`GraphBuilder.ProjectionMeetsProof`). A verified
  certificate whose insertion ends in a mismatch by a collision alone is
  `ProjectionMismatches.CollidingTextsMismatch`, one by a skipped dependency is
  `ProjectionMismatches.SkippedDependencyMismatches`. Without separators in names only the latter is possible
  (`GraphBuilder.PlainNamesProject`).

## Model

| member | source | states |
|---|---|---|
| ObjectKeys.PrintInjective | crates/database-memory-core/src/lib.rs:128-173 | no two object keys print alike, across the plain and the `v2:` form, whatever characters their components hold |
| ObjectKeys.ParsePrint | crates/database-memory-core/src/lib.rs:128-218 | parsing a printed key gives that key back if and only if no component is empty and the source kind is not the bare version mark `v2` |
| ObjectKeys.ParseOwnPrint | crates/database-memory-core/src/lib.rs:128-218 | apart from the source kind `v2` a printed key is read as itself, and not at all when a component is empty |
| ObjectKeys.ReparseStable | crates/database-memory-core/src/lib.rs:175-233 | a key read from any accepted text, canonical or not (lower-case `%3a`, bare `%`), is read again from its own printed form, exactly unless its source kind is the bare `v2` |
| ObjectKeys.VersionMarkAsSourceKind | crates/database-memory-core/src/lib.rs:128-216 | the family for which the round trip fails: source kind `v2`, no reserved character, no sub-object; the text is accepted, the printed key is not |
| ObjectKeys.Display | crates/database-memory-core/src/lib.rs:128-173 | the printing loop writes exactly the printed form all other laws are about |
| ObjectKeys.DecodeObjectKeyPart | crates/database-memory-core/src/lib.rs:218-233 | the one-pass decoding loop gives the inverse of the escape, and refuses a lone or unknown percent sign |
| ObjectKeys.DecodeWhen | crates/database-memory-core/src/lib.rs:218-233 | a text is decoded to a part if and only if it spells the part character by character, `%` as `%25` and `:` as `%3A`, `%3a` or itself |
| ObjectKeys.PrintedForm | crates/database-memory-core/src/lib.rs:128-173 | every key is printed as its six or seven escaped components in order between colons, after `v2:` if and only if a component holds `:` or `%` |
| ObjectKeys.EscapedForm | crates/database-memory-core/src/lib.rs:165-173 | escaping is character by character: `%25`, `%3A`, and every other character as it is |
| Ordering.TextLessWhen | crates/database-memory-core/src/impact_analysis.rs:199-213 | texts are ordered by the first place where they differ: the one that ends there or has the smaller character comes first |
| Canonical.NormalizeIdempotent | crates/database-memory-core/src/canonical.rs:24-69 | normalising a snapshot twice is normalising it once, for every snapshot |
| Canonical.NormalizeCanonical | crates/database-memory-core/src/canonical.rs:24-69 | snapshots that differ only in the order of collections with distinct keys, and in the order and repeats of dependency, event, note and limitation lists, have one normal form |
| Canonical.NormalizeMovesWholeObjects | crates/database-memory-core/src/canonical.rs:28-48 | the constraints and indexes of the normal form are the given ones as a multiset, so the column order inside each is untouched |
| NormalForms.NormalizeKeepsContents | crates/database-memory-core/src/canonical.rs:24-69 | list by list the normal form holds the same objects, ordered by key; views, triggers and routines keep all they list, and the capabilities all notes and limitations, once each and in order; nothing else changes |
| SnapshotValidation.ValidateSchemaSnapshot | crates/database-memory-core/src/snapshot_validation.rs:39-390 | the validator collects no issue if and only if the snapshot is well formed: one source, alias and database, every key of its kind and listed once, parents and columns known and of the right table, arities, ordinals and lists without repeats |
| SnapshotValidation.SnapshotValidator.Register | crates/database-memory-core/src/snapshot_validation.rs:429-448 | files a key under its printed form, and adds an issue exactly when the kind is wrong or the key was filed before |
| SnapshotValidation.SnapshotValidator.ValidateRegisteredScope | crates/database-memory-core/src/snapshot_validation.rs:473-502 | adds an issue exactly when some filed key lies outside the snapshot's source, alias or database or has a blank part |
| SnapshotValidation.SnapshotValidator.ValidateConstraint | crates/database-memory-core/src/snapshot_validation.rs:157-253 | adds an issue exactly when the constraint breaks a rule of its kind: owner, columns of the owner without repeats, and for a foreign key the referenced table, its columns and equal arity |
| SnapshotValidation.HasDuplicateKeys | crates/database-memory-core/src/snapshot_validation.rs:392-395 | a set of printed keys decides whether a list names a key twice |
| SnapshotRules.WellFormedReordered | crates/database-memory-core/src/snapshot_validation.rs:39-390 | acceptance does not depend on the order of any of the eight collections |
| CanonicalRules.ValidateCanonicalSchemaSnapshot | crates/database-memory-core/src/canonical_validation.rs:17-75 | no issue is collected if and only if the typed part is well formed, all keys of typed and metadata objects are distinct, every parent, annotation and relationship end is known and of a permitted kind, and no annotation or relationship is repeated |
| CanonicalRules.CanonicalWellFormedReordered | crates/database-memory-core/src/canonical_validation.rs:17-75 | acceptance does not depend on the order of any collection, metadata included |
| CanonicalRules.CheckRelationship | crates/database-memory-core/src/canonical_validation.rs:218-260 | adds an issue exactly when an end is unknown, the kinds of two known ends do not fit, the ordinal is zero, an extension name is invalid or the properties are too large |
| Certification.EmittedObjectCounts | crates/database-memory-core/src/certification.rs:437-466 | every object category is counted, with the number of typed and metadata objects of that kind |
| Certification.CountConstraintColumns | crates/database-memory-core/src/certification.rs:468-567 | the two counters of the constraint loop are the sums over all constraints of foreign-key column pairs and of other columns |
| Certification.SumOfCounts | crates/database-memory-core/src/certification.rs:437-466 | the counts over a list of all categories add up to the number of objects: each is counted once |
| Certification.ValidateCounts | crates/database-memory-core/src/certification.rs:774-862 | the reconciliation loop fails unless every category is listed exactly once with evidence and discovered = emitted = actual |
| Certification.ReconcileCounts | crates/database-memory-core/src/certification.rs:280-350 | the certifying loop over the categories fails exactly when some discovered count is missing, has no evidence or differs from the emitted one, and never where verification would accept; it yields the reconciliations in category order |
| Certification.VerifyCertifiedSchemaSnapshot | crates/database-memory-core/src/certification.rs:373-435 | verification accepts exactly the certified snapshots of the right contract version whose snapshot is well formed and normal and whose proof, scope and 26 + 16 categories all reconcile; what each category then counts is `CategoryCounts.VerifiedByCategory` |
| Certification.CertifySchemaSnapshot | crates/database-memory-core/src/certification.rs:225-371 | certifying succeeds exactly when verification accepts the assembled snapshot, and then returns it: none of its own checks rejects what verification would accept |
| Certification.CertificationIgnoresOrder | crates/database-memory-core/src/certification.rs:225-371 | equivalent snapshots, permuted checks and scope values with any order and repeats assemble to one certified value |
| CertificationCompleteness.CertifiedExactlyWhen | crates/database-memory-core/src/certification.rs:225-371 | the outcome is a certificate if and only if the normal form is well formed, the identities, scope values, checks and capabilities pass their rules and the discovery is honest; what an honest discovery reports is `CategoryCounts.HonestMeans` |
| CertificationCompleteness.HonestIsCertified | crates/database-memory-core/src/certification.rs:225-371 | a well-formed snapshot is certified whenever the discovered counts are honest and the identities, scope values, checks and capabilities pass their rules |
| CertificationCompleteness.CertificateTells | crates/database-memory-core/src/certification.rs:225-371 | a certificate bears the given identities, the scope values and checks in order, the normal form, and for every category the discovered number with its evidence |
| CategoryCounts.VerifiedByCategory | crates/database-memory-core/src/certification.rs:468-567 | in a verified proof the number of each relationship category is that of the planned edges of its kinds plus the dependencies skipped there, a foreign-key pair and a trigger counted once |
| CategoryCounts.HonestMeans | crates/database-memory-core/src/certification.rs:437-567 | a discovery is honest if and only if every object category has evidence and the number of objects of that kind the snapshot lists, and every relationship category the number of edges of its kinds plus what is skipped there |
| NormalForms.NormalizeKeepsWellFormed | crates/database-memory-core/src/canonical.rs:24-69 | normalising a snapshot both validators accept gives one they accept, with the same objects |
| CertificationOrder.OutcomeIgnoresOrder | crates/database-memory-core/src/certification.rs:225-371 | for any permutation of the collections, distinct keys or not, the outcome of certifying is the same: the same certificate or none |
| Certification.VerifiedObjectTotal | crates/database-memory-core/src/certification.rs:373-466 | an accepted proof names each of the 26 object and 16 relationship categories once and its object total is the number of objects |
| Certification.VerifiedRelationTotal | crates/database-memory-core/src/certification.rs:468-567 | the relationship total of an accepted proof is the number of semantic relations the snapshot holds |
| EdgeFetch.NextEdgesBounded | crates/database-memory-core/src/impact_analysis.rs:164-197 | within a budget exactly the first incident edges by priority and edge key, self-loops once, and the flag says whether there are more; without one all of them |
| EdgeFetch.IncidentLead | crates/database-memory-core/src/impact_analysis.rs:164-197 | the edges offered at a node are those leaving it for its ends, those entering it for their starts, as the direction says |
| EdgeFetch.RankedFirst | crates/database-memory-core/src/impact_analysis.rs:199-225 | a cut drops only the last edges of the ranking: dependencies go before other edges and containment comes last, so no containment edge is kept while another is dropped |
| EdgeFetch.MergeIsPrefix | crates/database-memory-core/src/impact_analysis.rs:164-213 | merging the two limited queries of budget + 1 rows, sorting, removing repeats and cutting gives the first k incident edges of the full ranking, and the flag is true exactly when the ranking is longer than k |
| EdgeFetch.FetchLimited | crates/database-memory-core/src/impact_analysis.rs:164-197 | one limited query per wanted direction, each asking for one row beyond the budget, and the flag of a source cut short |
| ImpactAnalysis.ImpactAnalysisBounded | crates/database-memory-core/src/impact_analysis.rs:66-128 | the queue loop returns every node at its exact distance in the chosen direction, none farther than a node left out; it is cut exactly when the edges at the nodes nearer than the depth, added up, exceed the budget; and it holds the nodes the first edges lead to, as many edges as the budget pays for, each by the first edge that does |
| ImpactAnalysis.ImpactIsExact | crates/database-memory-core/src/impact_analysis.rs:66-162 | for every graph, cyclic or not, direction, start, depth and budget: exact distances with a stored edge that justifies each hop, nearest first, all nodes of distance 1 to the depth when not cut, no underflow of the budget; when a run is cut is `ImpactAnalysis.ImpactSpends` |
| ImpactAnalysis.ImpactSpends | crates/database-memory-core/src/impact_analysis.rs:66-128 | a bounded run is cut if and only if the incident edges of the nodes nearer than the depth are more than the budget, each node counted on its own, and it spends the budget on the first of them in turn |
| ImpactAnalysis.ImpactBudgetLaws | crates/database-memory-core/src/impact_analysis.rs:66-128 | for finite budgets the discoveries under the smaller are a prefix of those under the larger, and an untruncated run has the nodes and depths of the unbounded one |
| ImpactAnalysis.GroupNodes | crates/database-memory-core/src/impact_analysis.rs:227-259 | the groups are in label and depth order, each holds the nodes of its label and depth in key order, and together they hold every node once |
| Reachability.BallIsWalks | crates/database-memory-core/src/impact_analysis.rs:66-128 | the distance the search is measured by is the length of a shortest walk along stored edges |
| BreadthFirst.DepthIsDistance | crates/database-memory-core/src/impact_analysis.rs:87-122 | a discovery's depth is its distance even while the search is under way |
| BreadthFirst.UndiscoveredIsFarther | crates/database-memory-core/src/impact_analysis.rs:93-122 | breaking off at the first node whose edges were cut leaves out only nodes at least as far as every discovery |
| GraphSearch.SearchIsExact | crates/database-memory-core/src/impact_analysis.rs:66-128 | the search is exact for every sound way of fetching edges, cut or not; when it is cut is `FollowedHops.SearchSpends` |
| FollowedHops.SearchSpends | crates/database-memory-core/src/impact_analysis.rs:66-128 | for every way of fetching that cuts a fixed list of edges per node, the search follows these lists in the order of discovery until the budget is spent, and is cut exactly when they are longer together |
| GraphSearch.SearchMonotone | crates/database-memory-core/src/impact_analysis.rs:66-128 | the discoveries grow monotonically with a finite budget |
| GraphQuery.QueryGraph | crates/database-memory-core/src/graph_query.rs:80-144 | nodes and edges are the first matching rows by key within what is left of min(limit, 500), the traversal reaches at most 8 hops and is complete unless cut, and the answer is truncated exactly when one of the three parts was cut |
| GraphQuery.NodesAreFirst | crates/database-memory-core/src/graph_query.rs:80-144 | the listed nodes are the first by key of the stored rows with the wanted label and the filter's consent, as many as there is room for |
| GraphQuery.EdgesAreFirst | crates/database-memory-core/src/graph_query.rs:80-144 | the listed edges are the first by key of the stored rows of the wanted type, as many as there is room for |
| GraphQuery.BoundedTraversal | crates/database-memory-core/src/graph_query.rs:197-258 | hits carry their exact distances along edges of the wanted type even when truncated, none is farther than a node left out, an untruncated traversal is complete up to the depth, and it stops exactly at the edge for which there is no room |
| GraphQuery.NextQueryEdgesBounded | crates/database-memory-core/src/graph_query.rs:260-296 | filtering by type in the queries before the budget is fetching within the subgraph of that type |
| GraphQuery.ListEdges | crates/database-memory-core/src/graph_query.rs:95-107 | asking for one row beyond the remaining limit gives the cut list and shows whether it was cut |
| RelationshipTrace.TraceRelationshipsBounded | crates/database-memory-core/src/relationship_trace.rs:44-128 | the queue loop reports walks along stored edges in the wanted direction, edge for edge, never more than the budget; it is cut exactly when the edges at the ends of all simple paths shorter than the depth, added up, exceed the budget, and lists those the first of them prolong |
| RelationshipTrace.TraceIsExact | crates/database-memory-core/src/relationship_trace.rs:72-125 | only simple edge paths of length 1 to the depth are listed, each once, none longer than a path left out, and all of them when not truncated; no path revisits a node; when a run is cut is `RelationshipTrace.TraceSpendsEdges` |
| RelationshipTrace.TraceSpendsEdges | crates/database-memory-core/src/relationship_trace.rs:72-125 | a bounded run is cut if and only if the incident edges at the ends of all simple paths shorter than the depth are more than the budget, and it spends the budget on the first of them in turn |
| TriedPaths.TraceSpends | crates/database-memory-core/src/relationship_trace.rs:72-125 | the same for every sound way of fetching that cuts a fixed list of edges per node |
| RelationshipTrace.ReportsWalk | crates/database-memory-core/src/relationship_trace.rs:104-128 | each reported path starts at the start node and names at every step a stored edge between its two nodes, in the wanted direction |
| RelationshipTrace.TraceBudgetLaws | crates/database-memory-core/src/relationship_trace.rs:75-125 | for finite budgets the smaller list is a prefix of the larger, and an untruncated list is as a multiset the unbounded one |
| PathSearch.SimpleVisitsEachOnce | crates/database-memory-core/src/relationship_trace.rs:104-118 | a listed path visits one node more than it has hops |
| PathSearch.MissedIsLonger | crates/database-memory-core/src/relationship_trace.rs:75-125 | stopping at the first path whose edges were cut misses no simple path shorter than a listed one |
| Projection.NodePlanKeys | crates/database-memory-core/src/graph_builder.rs:137-252 | one node is written per object, typed or metadata, and no other |
| ProjectionClosure.EdgePlanJoins | crates/database-memory-core/src/graph_builder.rs:148-424 | no edge planned for a snapshot the validator accepts dangles: both ends are objects of the snapshot |
| ProjectionClosure.EdgePlanDistinct | crates/database-memory-core/src/graph_builder.rs:148-424 | no two planned edges agree in type, ends and ordinal |
| ProjectionCounts.EdgePlanCount | crates/database-memory-core/src/graph_builder.rs:148-496 | planned edges plus skipped dependencies are the semantic relations plus one extra per foreign-key column pair and per trigger |
| StoredRelations.StoredGraphTells | crates/database-memory-core/src/graph_builder.rs:148-424 | every stored edge says something true: its type text, literally, relates its two objects in the snapshot; and where no two texts collide there is an edge of a type between two keys if and only if the snapshot relates them so, for all 24 plain kinds and for relationships |
| StoredRelations.PlainGraphTells | crates/database-memory-core/src/graph_builder.rs:148-555 | for an accepted snapshot with plain names the stored edges say exactly what its objects list |
| StoredRelations.CertifiedGraphTells | crates/database-memory-core/src/graph_builder.rs:148-555 | and so they do for every verified snapshot that projects |
| StoredRelations.StoredRowsAre | crates/database-memory-core/src/graph_builder.rs:516-555 | edge rows hold just what they say: their type, ends, text key and, for relationships, ordinal and properties |
| StoredObjects.StoredNodesTell | crates/database-memory-core/src/graph_builder.rs:137-252 | a node row is stored if and only if it is that of an object of the snapshot: under its printed key, with the label of its kind spelled out, its name, its own contents and its annotation |
| EdgeTexts.EdgeTextInjective | crates/database-memory-core/src/graph_builder.rs:516-555 | edges whose keys hold no `>` and whose extension names hold neither `>` nor `:` have the same text key only if they agree in type, ends and ordinal |
| EdgeTexts.TypeHeadInjective | crates/database-memory-core/src/canonical.rs:140-157 | the names of edge types tell all kinds of edges apart, extensions among themselves excepted |
| GraphBuilder.ProjectionMeetsProof | crates/database-memory-core/src/graph_builder.rs:21-52 | for a verified snapshot the node count always is the proof's object total; the edge count never exceeds the promised one and equals it if and only if no dependency was skipped and no two edges share a text key |
| GraphBuilder.PlainTextsDistinct | crates/database-memory-core/src/graph_builder.rs:516-555 | where names hold no separator, no two edges of an accepted snapshot share a text key |
| GraphBuilder.PlainNamesProject | crates/database-memory-core/src/graph_builder.rs:254-424 | where names hold no separator, the counts agree exactly when every view depends on tables, columns and views and every routine on tables and columns |
| ProjectionMismatches.CollidingTextsMismatch | crates/database-memory-core/src/graph_builder.rs:516-555 | a verified certificate in which nothing is skipped and whose two extension relationships share one row: inserting it ends in a mismatch all the same |
| ProjectionMismatches.SkippedDependencyMismatches | crates/database-memory-core/src/graph_builder.rs:254-424 | a verified certificate in which a view depends on a routine, so that inserting it ends in a mismatch |
| ProjectionMismatches.CollisionMismatches | crates/database-memory-core/src/graph_builder.rs:516-555 | any two different relationships with one text key make the counts differ |
| GraphStore.Store.InsertSnapshot | crates/database-memory-core/src/graph_store.rs:254-274 | upserts the record if a versioned payload verifies, and refuses it otherwise; rows of nodes and edges stay |
| GraphStore.Store.InsertNode | crates/database-memory-core/src/graph_store.rs:403-423 | upserts a node, and fails when its snapshot is not stored |
| GraphStore.Store.InsertEdge | crates/database-memory-core/src/graph_store.rs:607-629 | upserts an edge, and fails unless both ends are stored nodes of the same snapshot |
| GraphStore.Store.DeleteSnapshot | crates/database-memory-core/src/graph_store.rs:395-401 | removes the snapshot with all its nodes and edges and nothing of any other |
| GraphStore.Store.DeleteNode | crates/database-memory-core/src/graph_store.rs:599-605 | removes the node and by cascade exactly the edges at it |
| GraphStore.Store.DeleteEdge | crates/database-memory-core/src/graph_store.rs:859-865 | removes one edge and nothing else |
| GraphStore.Store.CountRows | crates/database-memory-core/src/graph_store.rs:474-481 | counts the nodes and edges of one snapshot |
| GraphStore.Store.GetCertifiedSnapshot | crates/database-memory-core/src/graph_store.rs:351-364 | a stored certificate verifies when it is read again: reading fails only with the database, and changes nothing |
| GraphStore.RowsAreClosed | crates/database-memory-core/src/graph_store.rs:161-194 | under the foreign keys the rows of each snapshot form a graph closed over its nodes, and there are none without the snapshot |
| GraphBuilder.InsertCertifiedSchemaSnapshotGraph | crates/database-memory-core/src/graph_builder.rs:73-92 | unless a statement fails, succeeds exactly for verified snapshots that project, holding exactly their graph, which says what the snapshot says (`StoredRelations.CertifiedGraphTells`, `StoredObjects.StoredNodesTell`); a mismatch misses only edges; on any error the store is as before |
| GraphBuilder.InsertSchemaSnapshotGraph | crates/database-memory-core/src/graph_builder.rs:54-71 | the plain form: validates, then replaces in one transaction, leaving the graph whose edges and nodes are those of `StoredRelations.StoredGraphTells` and `StoredObjects.StoredNodesTell`; on any error the store is as before |
| GraphBuilder.ReplaceRows | crates/database-memory-core/src/graph_builder.rs:113-424 | deleting the old generation and writing the new leaves exactly the planned graph under the key, and can fail only through the database |
| GraphBuilder.ReplaceInTransaction | crates/database-memory-core/src/graph_store.rs:234-252 | the transaction around a replacement commits all of it or nothing |
| GraphBuilder.VerifyProjectionCounts | crates/database-memory-core/src/graph_builder.rs:94-111 | the counted rows are compared with the promised numbers, and a mismatch reports both pairs |
| GraphBuilder.RowsAreWritable | crates/database-memory-core/src/graph_builder.rs:254-424 | every edge row of an accepted snapshot meets the foreign keys with the snapshot's own node rows |
| IndexRuns.RunAttempts | crates/database-memory-core/src/graph_builder.rs:54-92 | over any run, whatever statements fail, each key holds the record and exactly the graph of its last successful attempt, other keys what they held, and the store stays closed and verified; only acceptable attempts succeed, all of them if no statement fails |
| IndexRuns.Index | crates/database-memory-core/src/graph_builder.rs:54-92 | one attempt replaces the rows of its key or leaves the whole store unchanged |
| IndexRuns.LastSuccessDecides | crates/database-memory-core/src/graph_builder.rs:126-139 | nothing of an earlier generation survives a later success |
| IndexRuns.WithoutSuccessNothingChanges | crates/database-memory-core/src/graph_store.rs:234-252 | a key for which no attempt succeeded holds what it held before the run |
| SchemaDiff.ComparableKeysEqual | crates/database-memory-core/src/schema_diff.rs:277-283 | apart from the source kind `v2` two keys are comparable-equal if and only if they are one, or no component is empty and all but the alias agree |
| SchemaDiff.EmptyPartsKeepAliases | crates/database-memory-core/src/schema_diff.rs:277-283 | the family that fails: a key with an empty component, such as the signature of a routine without arguments, keeps its alias and differs under every other |
| SchemaDiff.UnreadableKeysKeepAliases | crates/database-memory-core/src/schema_diff.rs:277-283 | a second family that fails: with the bare source kind `v2` and no sub-object the alias stays in the comparable key |
| JsonPayload.StripDecides | crates/database-memory-core/src/schema_diff.rs:294-315 | two payloads are equal after the recursive removal of aliases if and only if they differ in alias properties only, at any depth |
| SchemaDiff.CompareSnapshots | crates/database-memory-core/src/schema_diff.rs:98-147 | the filtering loops over the two ordered maps list exactly the rows only one side has and the nodes that changed; which nodes these are is `PayloadContents.ChangedNodesDiffer` |
| SchemaDiff.PatchGivesTo | crates/database-memory-core/src/schema_diff.rs:98-161 | applying removed, changed and added to one snapshot gives the other: the same comparable keys, and under each a node the diff cannot tell from the other's |
| SchemaDiff.SwapMirrors | crates/database-memory-core/src/schema_diff.rs:98-161 | swapping the snapshots swaps added and removed and mirrors changed |
| SchemaDiff.NoDifferenceWhen | crates/database-memory-core/src/schema_diff.rs:98-161 | nothing is listed if and only if both sides have the same comparable keys and no node changed; when a node counts as changed is `PayloadContents.SameWhen` |
| PayloadContents.SameWhen | crates/database-memory-core/src/schema_diff.rs:115-127 | two node rows are not called changed if and only if labels and display names agree and their contents and annotations, alias-named properties aside, are equal once the alias of every object key in them is erased |
| PayloadContents.PayloadsBlind | crates/database-memory-core/src/schema_diff.rs:294-315 | the serialised payloads differ in alias properties only if and only if the objects agree in every field up to the aliases of their keys |
| PayloadContents.ChangedNodesDiffer | crates/database-memory-core/src/schema_diff.rs:98-131 | the changed nodes are exactly the pairs of stored nodes under one comparable key that differ in label, name, contents or annotation |
| ComparedRows.ComparableEdgesEqual | crates/database-memory-core/src/schema_diff.rs:285-292 | two edges are compared by one text if and only if they agree in type and in both ends, aliases aside, for types and keys that cannot be misread |
| ComparedRows.NodeListsAre | crates/database-memory-core/src/schema_diff.rs:98-114 | the added nodes are rows of the newer snapshot, in comparable order, no two of one object, and stand for exactly its nodes whose object the older lacks; removed nodes the other way round |
| ComparedRows.EdgeListsAre | crates/database-memory-core/src/schema_diff.rs:132-147 | the same of added and removed edges, taken by type and both ends |
| SchemaDiff.SelfDiffIsEmpty | crates/database-memory-core/src/schema_diff.rs:54-65 | a snapshot does not differ from itself |
| BoundedDiff.BuildSchemaDiff | crates/database-memory-core/src/schema_diff.rs:98-191 | counts are those of the full diff, each list is its beginning within the limit, the impacts share one budget, and the diff is truncated exactly when a list, the seeds or an impact was cut; in terms of stored rows this is `PayloadContents.SameWhen` and `BoundedDiff.DiffAnalysesInTurn` |
| BoundedDiff.CollectSeeds | crates/database-memory-core/src/schema_diff.rs:193-213 | the seeds are exactly the added and changed nodes of the newer and the removed nodes of the older snapshot |
| BoundedDiff.ChangedImpacts | crates/database-memory-core/src/schema_diff.rs:215-253 | one analysis per seed in order, each with what the earlier ones left of the budget |
| BoundedDiff.ImpactsShareTheBudget | crates/database-memory-core/src/schema_diff.rs:215-253 | all impacts together hold no more nodes than the limit |
| BoundedDiff.UncutDiffIsFull | crates/database-memory-core/src/schema_diff.rs:98-253 | an untruncated bounded diff agrees with every larger one, the unbounded one included: lists, seeds, and per seed the nodes with their depths |
| BoundedDiff.CutListsArePrefixes | crates/database-memory-core/src/schema_diff.rs:164-174 | each reported list is the beginning of the full one, as long as the limit allows, and the diff says truncated exactly when a list, the impacts or one of these fell short |
| BoundedDiff.SeedsAreStored | crates/database-memory-core/src/schema_diff.rs:193-253 | every seed is a stored node, so its impact is that node's exact surroundings |
| BoundedDiff.DiffAnalysesInTurn | crates/database-memory-core/src/schema_diff.rs:215-253 | the seeds are analysed in key order as far as the limit allows, each in both directions with the limit less the nodes already reported, nearest first at exact distances, and cut exactly when that is less than the edges near it |
| BoundedDiff.NoDifferenceNoImpact | crates/database-memory-core/src/schema_diff.rs:98-191 | without a difference the diff counts nothing, has no impacts and is not truncated |
| AliasDiff.AliasIsInvisible | crates/database-memory-core/src/schema_diff.rs:255-315 | two stored snapshots whose keys are all read back from their printed form, whatever their source kind, that differ only in their connection alias compare as equal |
| AliasValidity.RenamedWellFormed | crates/database-memory-core/src/canonical_validation.rs:17-75 | a well-formed snapshot stays well formed under another alias if and only if the alias is not blank and makes no two referenced columns of a check constraint one |
| AliasExactness.AliasInvisibleWhen | crates/database-memory-core/src/schema_diff.rs:255-315 | two stored snapshots that differ only in their connection alias compare as equal if and only if no object has a key with an empty component |
| AliasExactness.AliasDiffWhen | crates/database-memory-core/src/schema_diff.rs:98-315 | under that condition the diff that is built lists and counts nothing, has no impacts and is not truncated; otherwise it counts a difference |
| AliasExactness.EmptyPartsAre | crates/database-memory-core/src/snapshot_validation.rs:473-502 | in an accepted snapshot the condition fails exactly when a typed object has an empty sub-object, or a metadata object an empty sub-object, schema or name |
| AliasExactness.PlainAliasInvisible | crates/database-memory-core/src/schema_diff.rs:98-315 | the same condition decides for plain names and any new, plain alias that is not blank and merges no referenced columns: no text of the renamed snapshot has to be known |
| EmptySignatures.AliasShowsRoutine | crates/database-memory-core/src/adapters/postgres_catalog.rs:3327-3338 | the certified snapshot with a routine without arguments: under every other plain alias the comparison has the routine on one side only |
| EmptySignatures.AliasCountsRoutine | crates/database-memory-core/src/schema_diff.rs:98-191 | and the diff that is built counts a difference |
| AliasRename.PayloadBlind | crates/database-memory-core/src/schema_diff.rs:294-315 | renaming the alias changes a node payload in alias properties only |
| AliasRename.EdgesRename | crates/database-memory-core/src/graph_builder.rs:148-424 | renaming the alias renames the planned edges and neither adds nor loses one |
| Inventory.InventoryDescriptionIndex.constructor | crates/database-memory-cli/src/metadata.rs:625-701 | the index built from a snapshot holds for every table exactly its columns, constraints, inbound foreign keys and indexes in listed order, and its dependents merged over all mentions |
| Inventory.InventoryDescriptionIndex.RecordDependencies | crates/database-memory-cli/src/metadata.rs:703-732 | dependencies on tables and on columns of a known table, and no others, are merged into the entries of those tables |
| Inventory.InventoryDescriptionIndex.RecordDependent | crates/database-memory-cli/src/metadata.rs:734-754 | one mention is merged into the entry of one table, other tables keep theirs |
| Inventory.InventoryDescriptionIndex.Describe | crates/database-memory-cli/src/metadata.rs:756-826 | the description put together from the index is that of the table's own objects, references and mentions in the snapshot; the names it gives are told by `DescriptionContents.DescriptionTells` |
| TableDescriptions.MergeAllCanonical | crates/database-memory-cli/src/metadata.rs:267-279 | merging mentions forgets their order and repeats |
| TableDescriptions.MergeAllSummarises | crates/database-memory-cli/src/metadata.rs:267-279 | the merged entry of an object lists exactly the columns some mention named, sorted and once each |
| GraphDescription.DescribeTable | crates/database-memory-cli/src/metadata.rs:120-174 | the walk over the stored graph yields the reference description, or fails where a node or payload does; the names it gives are told by `DescriptionContents.BothTell` |
| GraphDescription.TableDependents | crates/database-memory-cli/src/metadata.rs:176-231 | the walk over dependency and trigger edges merges every mention at the table and its columns, or fails where one cannot be read |
| InventoryAgreement.OwnedInOrder | crates/database-memory-cli/src/metadata.rs:334-388 | walking the edges of one type out of a table reads exactly the objects it owns, in the snapshot's order, ties included |
| InventoryDependents.InboundAre | crates/database-memory-cli/src/metadata.rs:138-154 | the foreign keys met at a table's columns are exactly those that refer to the table, in the snapshot's order |
| InventoryTheorem.MentionsAgree | crates/database-memory-cli/src/metadata.rs:176-231 | if every dependent can be read, the walk mentions exactly the dependents the snapshot mentions, each as its key is read |
| InventoryTheorem.WalkGivesUp | crates/database-memory-cli/src/metadata.rs:176-231 | if one dependent of the table cannot be read, the walk fails |
| InventoryTheorem.WalkDescribes | crates/database-memory-cli/src/metadata.rs:120-279 | once the table and its dependents are read, the walk describes the table by the snapshot's own objects, order and ties included |
| InventoryTheorem.WalkAgreesWhen | crates/database-memory-cli/src/metadata.rs:120-279 | for every source kind, the walk gives the index's description if and only if the printed keys of the table and of its dependents are read back as what they are |
| InventoryTheorem.DescribeBothWays | crates/database-memory-cli/src/metadata.rs:756-826 | the walk and the index give one description, with columns, primary key, constraints, foreign keys both ways, indexes and dependents in the same order, if and only if the table is recognised; the walk fails where a dependent cannot be read, and the index always answers |
| DescriptionContents.DescriptionTells | crates/database-memory-cli/src/metadata.rs:756-826 | what is put together for a table lists its own columns by position, constraints, and indexes by name; its primary key and the columns of every foreign key, both ways, are position by position the names of the column objects whose keys the constraint lists |
| DescriptionContents.BothTell | crates/database-memory-cli/src/metadata.rs:120-174 | so the description of the index tells, and that of the walk whenever it does not fail |
| DependentContents.IndexedDependents | crates/database-memory-cli/src/metadata.rs:176-231 | the dependents are, in key order, exactly the views and routines that name the table or one of its columns, each with the columns it names, and the table's triggers, with their names and relations spelled out |
| DescriptionConditions.RecognisedWhen | crates/database-memory-cli/src/metadata.rs:1157-1161 | apart from the source kind `v2` a table is recognised if and only if no routine that reads it or a column of it has an empty signature and no trigger of it an empty name |
| DescriptionConditions.DescriptionsAgreeWhen | crates/database-memory-cli/src/metadata.rs:120-231 | under exactly that condition the walk describes the table as the index does; otherwise it gives up |
| EmptySignatures.WalkMissesTable | crates/database-memory-cli/src/metadata.rs:176-231 | a certificate that verifies and is stored, in which a routine without arguments reads a table: the walk cannot describe that table |
| StoredDescriptions.CertifiedIsIndexed | crates/database-memory-core/src/graph_builder.rs:73-92 | a snapshot that was verified and projects is stored as the theorem on the descriptions asks |
| StoredDescriptions.LastSuccessIsIndexed | crates/database-memory-core/src/graph_builder.rs:54-92 | after any run of attempts the graph held for a key is one the theorem applies to |
| StoredDescriptions.LastSuccessSaysAll | crates/database-memory-core/src/graph_builder.rs:54-92 | after any run of attempts the graph held for a key says of every object, and of any two, what the last certificate indexed for it does, and nothing else |
| StoredDescriptions.IndexAndDescribe | crates/database-memory-cli/src/metadata.rs:120-279 | once a certified snapshot is indexed, the graph says of every object and of any two what the snapshot does, the inventory index describes each of its tables by the snapshot's own objects, and walking the store gives the same description exactly when the table is recognised |

## Left out

- Database adapters, drivers, DDL files, deadlines, introspection calls: a discovery (snapshot and counts) is the input.
- SQLite itself: upsert, cascade, foreign keys, ORDER BY, LIMIT, begin, commit and rollback are modelled, migrations and the clamp of LIMIT to 64 bits are not.
- Concurrency between processes on one database file: a store is used by one caller at a time.
- JSON text: payloads are values, and a payload read as another kind than was stored is refused.
- Wording, order and merging of validation issues: only whether there are any is modelled.
- Capability warnings, analysis outcomes, rendering, argument parsing, configuration, pagination and the MCP wrappers.
- Redaction.
- Case-insensitive substring search and paging over nodes: the node filter of a query is a parameter.
- Selecting a table by name or by an ambiguous selector: descriptions start from a table's object key.
- Traversals and descriptions read the rows of one snapshot as a value; writes between two of their queries are not modelled.
- The order in which the object rows of a metadata extension are listed by label.
- BoundedDiff.BuildSchemaDiff: keeps the impacts of a seed as one list, because their grouping by label and depth is that of `ImpactAnalysis.GroupNodes`.
- StoredRelations.StoredGraphTells: promises an edge for every relation only where no two edge texts collide, because colliding edges share one row; without that every edge is still true and every relation's text key is stored.
- ComparedRows.EdgeListsAre: asks that edge types and starting keys hold no text that could be read as a separator, because edges are compared by one joined text.
- PayloadContents.SameWhen: leaves out properties named `connection_alias`, at every depth, as the code does.
- SchemaDiff.PatchGivesTo: compares edges by their comparable keys only, because the diff never looks at edge payloads.
- SchemaDiff.NoDifferenceWhen: properties that are themselves named `connection_alias` are ignored, as the code does at every depth.
- AliasExactness.AliasInvisibleWhen: asks for a source kind other than `v2`, which no adapter uses, and for edge texts that do not collide on either side, because an alias or a name with separators can make them collide; `AliasExactness.PlainAliasInvisible` gives both from plain names. For the source kind `v2` only one direction is stated, in `AliasDiff.AliasIsInvisible`: there the alias is kept in keys without a reserved character, unless it happens to be the placeholder `_` itself.
- DescriptionConditions.DescriptionsAgreeWhen: asks for a source kind other than `v2`; the form for every source kind is `InventoryTheorem.DescribeBothWays`.
- Canonical.NormalizeCanonical: asks for distinct keys, because a stable sort keeps the order of objects with equal keys; for the outcome of certifying this does not matter (`CertificationOrder.OutcomeIgnoresOrder`).
- InventoryTheorem.DescribeBothWays: asks for a normal snapshot, as certified ones are, because a plain one may list foreign keys of the same name in another order than the walk meets them.
- ImpactAnalysis.ImpactBudgetLaws: compares bounded and unbounded runs by nodes and depths, because they fetch edges in different orders and may record another edge of the same length.
