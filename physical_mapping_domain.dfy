/**
  Mappings between two physical models.  Each level relates one source object
  to one target object and holds the ordered mappings of its children; a
  column mapping always has both a source and a target column.
 */
module PhysicalMappingDomain {
  import opened PhysicalDomain

  datatype ColumnMapping = ColumnMapping(sourceColumn: Column, targetColumn: Column)

  datatype TableMapping = TableMapping(sourceTable: Table, targetTable: Table, columnMappings: seq<ColumnMapping>)

  datatype SchemaMapping = SchemaMapping(sourceSchema: Schema, targetSchema: Schema, tableMappings: seq<TableMapping>)

  datatype PhysicalModelMapping = PhysicalModelMapping(
    sourceModel: PhysicalModel,
    targetModel: PhysicalModel,
    schemaMappings: seq<SchemaMapping>)

  // Record construction with the child list left out.

  function NewTableMapping(sourceTable: Table, targetTable: Table): TableMapping {
    TableMapping(sourceTable, targetTable, [])
  }

  function NewSchemaMapping(sourceSchema: Schema, targetSchema: Schema): SchemaMapping {
    SchemaMapping(sourceSchema, targetSchema, [])
  }

  function NewPhysicalModelMapping(sourceModel: PhysicalModel, targetModel: PhysicalModel): PhysicalModelMapping {
    PhysicalModelMapping(sourceModel, targetModel, [])
  }

  /** Omitted child mappings are empty; the related objects are kept as given. */
  lemma MappingDefaults(t1: Table, t2: Table, s1: Schema, s2: Schema, m1: PhysicalModel, m2: PhysicalModel)
    ensures NewTableMapping(t1, t2).columnMappings == []
    ensures NewTableMapping(t1, t2).sourceTable == t1 && NewTableMapping(t1, t2).targetTable == t2
    ensures NewSchemaMapping(s1, s2).tableMappings == []
    ensures NewSchemaMapping(s1, s2).sourceSchema == s1 && NewSchemaMapping(s1, s2).targetSchema == s2
    ensures NewPhysicalModelMapping(m1, m2).schemaMappings == []
    ensures NewPhysicalModelMapping(m1, m2).sourceModel == m1 && NewPhysicalModelMapping(m1, m2).targetModel == m2
  {
  }

  // ---------------------------------------------------------------------------
  // Agreement between a mapping and the models it relates

  /**
    The i-th column mapping relates source column `i + sourceOffset` to target
    column `i + targetOffset`, and every source and target column after the
    offsets is covered.
   */
  predicate ColumnMappingsAligned(tm: TableMapping, sourceOffset: nat, targetOffset: nat) {
    && |tm.columnMappings| + sourceOffset == |tm.sourceTable.columns|
    && |tm.columnMappings| + targetOffset == |tm.targetTable.columns|
    && forall i :: 0 <= i < |tm.columnMappings| ==>
         && tm.columnMappings[i].sourceColumn == tm.sourceTable.columns[i + sourceOffset]
         && tm.columnMappings[i].targetColumn == tm.targetTable.columns[i + targetOffset]
  }

  /** The table mappings of a schema mapping are, in order, those of its source and target tables. */
  predicate SchemaMappingConsistent(sm: SchemaMapping) {
    && |sm.tableMappings| == |sm.sourceSchema.tables| == |sm.targetSchema.tables|
    && forall j :: 0 <= j < |sm.tableMappings| ==>
         && sm.tableMappings[j].sourceTable == sm.sourceSchema.tables[j]
         && sm.tableMappings[j].targetTable == sm.targetSchema.tables[j]
  }

  /** The schema mappings of a model mapping are, in order, those of its source and target schemas. */
  predicate ModelMappingConsistent(m: PhysicalModelMapping) {
    && |m.schemaMappings| == |m.sourceModel.schemas| == |m.targetModel.schemas|
    && forall i :: 0 <= i < |m.schemaMappings| ==>
         && m.schemaMappings[i].sourceSchema == m.sourceModel.schemas[i]
         && m.schemaMappings[i].targetSchema == m.targetModel.schemas[i]
         && SchemaMappingConsistent(m.schemaMappings[i])
  }
}
