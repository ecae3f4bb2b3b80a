/** The values a schema snapshot is made of (lib.rs, canonical.rs and certification.rs of
    database-memory-core). */
module SchemaModel {
  import opened Wrappers
  import opened ObjectKeys

  datatype DatabaseObject = DatabaseObject(key: ObjectKey, name: string)

  datatype SchemaObject = SchemaObject(key: ObjectKey, databaseKey: ObjectKey, name: string)

  datatype TableKind = BaseTable | Temporary | Foreign | Partitioned | Partition | Virtual | Shadow

  datatype TableObject = TableObject(key: ObjectKey, schemaKey: ObjectKey, name: string, kind: TableKind)

  datatype ColumnObject = ColumnObject(
    key: ObjectKey, tableKey: ObjectKey, name: string, ordinalPosition: nat,
    dataType: string, isNullable: bool, defaultValue: Option<string>, isGenerated: bool)

  datatype ConstraintKind = PrimaryKeyRule | ForeignKeyRule | UniqueRule | CheckRule

  datatype ConstraintObject = ConstraintObject(
    key: ObjectKey, tableKey: ObjectKey, name: string, kind: ConstraintKind, columns: seq<ObjectKey>,
    referencedTableKey: Option<ObjectKey>, referencedColumns: seq<ObjectKey>, expression: Option<string>)

  datatype IndexObject = IndexObject(
    key: ObjectKey, tableKey: ObjectKey, name: string, columns: seq<ObjectKey>,
    isUnique: bool, isPrimary: bool, filter: Option<string>, expression: Option<string>)

  datatype ViewObject = ViewObject(
    key: ObjectKey, schemaKey: ObjectKey, name: string, definition: Option<string>, dependsOn: seq<ObjectKey>)

  datatype TriggerObject = TriggerObject(
    key: ObjectKey, tableKey: ObjectKey, name: string, timing: Option<string>, events: seq<string>,
    definition: Option<string>, executesRoutineKey: Option<ObjectKey>)

  datatype RoutineKind = Function | Procedure

  datatype RoutineObject = RoutineObject(
    key: ObjectKey, schemaKey: ObjectKey, name: string, kind: RoutineKind,
    definition: Option<string>, dependsOn: seq<ObjectKey>)

  datatype CapabilitySupport = Supported | Partial | Unsupported | Unknown

  datatype AdapterCapabilities = AdapterCapabilities(
    sourceKind: string, metadataOnly: bool,
    schemas: bool, tables: bool, columns: bool, constraints: bool, indexes: bool,
    views: CapabilitySupport, triggers: CapabilitySupport,
    routines: CapabilitySupport, dependencies: CapabilitySupport,
    limitations: seq<string>, notes: seq<string>)

  datatype SchemaSnapshot = SchemaSnapshot(
    sourceKind: string,
    connectionAlias: string,
    database: DatabaseObject,
    schemas: seq<SchemaObject>,
    tables: seq<TableObject>,
    columns: seq<ColumnObject>,
    constraints: seq<ConstraintObject>,
    indexes: seq<IndexObject>,
    views: seq<ViewObject>,
    triggers: seq<TriggerObject>,
    routines: seq<RoutineObject>,
    capabilities: AdapterCapabilities)

  // ------------------------------------------------------ canonical metadata

  datatype MetadataValue =
    | Boolean(b: bool) | Integer(i: int) | Unsigned(n: nat) | Text(s: string) | TextList(l: seq<string>)

  type Properties = map<string, MetadataValue>

  datatype MetadataObject = MetadataObject(
    key: ObjectKey, parentKey: Option<ObjectKey>, name: string,
    extensionKind: Option<string>, definition: Option<string>, properties: Properties)

  datatype ObjectAnnotation = ObjectAnnotation(
    objectKey: ObjectKey, definition: Option<string>, properties: Properties)

  datatype MetadataRelationshipKind =
    | DependsOn | UsesType | UsesSequence | PartitionOf | InheritsFrom | SynonymFor | HasParameter
    | ReturnsType | OwnedBy | Materializes | Invokes | IncludesColumn | ExcludesWith
    | ExtensionRelation(name: string)

  datatype MetadataRelationship = MetadataRelationship(
    kind: MetadataRelationshipKind, fromKey: ObjectKey, toKey: ObjectKey,
    ordinal: Option<nat>, properties: Properties)

  datatype CanonicalMetadata = CanonicalMetadata(
    objects: seq<MetadataObject>, annotations: seq<ObjectAnnotation>, relationships: seq<MetadataRelationship>)

  const NoMetadata := CanonicalMetadata([], [], [])

  datatype CanonicalSchemaSnapshot = CanonicalSchemaSnapshot(schema: SchemaSnapshot, metadata: CanonicalMetadata)

  // ----------------------------------------------------- completeness proofs

  datatype RelationshipCategory =
    | DatabaseHasSchema | SchemaHasTable | TableHasColumn | TableHasConstraint | ConstraintColumn
    | ForeignKeyColumnPair | TableHasIndex | IndexColumn | SchemaHasView | ViewDependency | TriggerTarget
    | TriggerRoutine | SchemaHasRoutine | RoutineDependency | MetadataParent | MetadataRelation

  /** Object categories correspond one to one with object kinds. */
  datatype CountReconciliation<C> = CountReconciliation(category: C, discovered: nat, emitted: nat, evidence: string)

  datatype DiscoveredCount = DiscoveredCount(count: nat, evidence: string)

  datatype DiscoveryCounts = DiscoveryCounts(
    objects: map<ObjectKind, DiscoveredCount>,
    relationships: map<RelationshipCategory, DiscoveredCount>)

  datatype CapabilityCheck = CapabilityCheck(name: string, evidence: string)

  datatype IntrospectionScope = IntrospectionScope(catalogs: seq<string>, schemas: seq<string>)

  datatype Identity = Identity(name: string, version: string)

  datatype CompletenessProof = CompletenessProof(
    adapter: Identity, server: Identity, scope: IntrospectionScope,
    objectCounts: seq<CountReconciliation<ObjectKind>>,
    relationshipCounts: seq<CountReconciliation<RelationshipCategory>>,
    capabilityChecks: seq<CapabilityCheck>)

  datatype CertifiedSchemaSnapshot = CertifiedSchemaSnapshot(
    contractVersion: nat, snapshot: CanonicalSchemaSnapshot, completeness: CompletenessProof)
}
