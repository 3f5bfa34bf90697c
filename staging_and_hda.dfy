/**
  Derived physical models.  The staging transform turns a source model into a
  staging model plus the mapping from source to staging; the HDA transform
  turns such a mapping into a mapping from the staging model to a historical
  data archive (HDA) model.
 */
module StagingAndHda {
  import opened Wrappers
  import opened PhysicalDomain
  import opened PhysicalMappingDomain

  // ---------------------------------------------------------------------------
  // Source to staging

  /** The two technical columns every staging table starts with. */
  function CreateTechnicalStagingColumns(): (cs: seq<Column>)
    ensures ColumnNames(cs) == ["stg_timestamp_utc", "stg_runId"]
    ensures cs[0].dataType == "datetime2" && cs[1].dataType == "uniqueidentifier"
    ensures forall c :: c in cs ==> !c.nullable && c.length.None? && c.scale.None?
  {
    [
      NewColumn("stg_timestamp_utc", "datetime2", false),
      NewColumn("stg_runId", "uniqueidentifier", false)
    ]
  }

  /**
    A source column becomes a staging column that keeps everything but its
    nullability, which it has exactly when it is not part of the source
    table's primary key; the mapping relates the two.
   */
  function SourceColumnToStaging(c: Column, sourceTable: Table): (r: (Column, ColumnMapping))
    ensures r.0 == c.(nullable := r.0.nullable)
    ensures r.0.nullable <==> c.name !in sourceTable.primaryKeyConstraint.columnNames
    ensures r.1.sourceColumn == c && r.1.targetColumn == r.0
  {
    var stagingColumn := Column(
      c.name,
      c.dataType,
      if c.name in sourceTable.primaryKeyConstraint.columnNames then false else true,
      c.length,
      c.scale);
    (stagingColumn, ColumnMapping(c, stagingColumn))
  }

  /**
    A source table becomes a staging table of the same name: the technical
    columns, then one staging column per source column in order; the primary
    key keeps its name and is extended in front with `stg_runId`; there are
    no foreign keys.  Its mapping covers the source columns only.
   */
  function SourceTableToStaging(t: Table): (r: (Table, TableMapping))
    ensures r.0.name == t.name
    ensures |r.0.columns| == |t.columns| + 2
    ensures r.0.columns[..2] == CreateTechnicalStagingColumns()
    ensures forall i :: 0 <= i < |t.columns| ==> r.0.columns[i + 2] == SourceColumnToStaging(t.columns[i], t).0
    ensures r.0.primaryKeyConstraint.name == t.primaryKeyConstraint.name
    ensures r.0.primaryKeyConstraint.columnNames == ["stg_runId"] + t.primaryKeyConstraint.columnNames
    ensures r.0.foreignKeyConstraints == []
    ensures r.1.sourceTable == t && r.1.targetTable == r.0
    ensures ColumnMappingsAligned(r.1, 0, 2)
  {
    var pairs := seq(|t.columns|, i requires 0 <= i < |t.columns| => SourceColumnToStaging(t.columns[i], t));
    var stagingTable := Table(
      t.name,
      PrimaryKeyConstraint(t.primaryKeyConstraint.name, ["stg_runId"] + t.primaryKeyConstraint.columnNames),
      CreateTechnicalStagingColumns() + seq(|pairs|, i requires 0 <= i < |pairs| => pairs[i].0),
      []);
    var mapping := TableMapping(t, stagingTable, seq(|pairs|, i requires 0 <= i < |pairs| => pairs[i].1));
    (stagingTable, mapping)
  }

  /** A source schema becomes a schema named `<source>_stg` with the staging tables, in order. */
  function SourceSchemaToStaging(s: Schema): (r: (Schema, SchemaMapping))
    ensures r.0.name == s.name + "_stg"
    ensures |r.0.tables| == |s.tables|
    ensures forall j :: 0 <= j < |s.tables| ==> r.0.tables[j] == SourceTableToStaging(s.tables[j]).0
    ensures r.1.sourceSchema == s && r.1.targetSchema == r.0
    ensures |r.1.tableMappings| == |s.tables|
    ensures forall j :: 0 <= j < |s.tables| ==> r.1.tableMappings[j] == SourceTableToStaging(s.tables[j]).1
    ensures SchemaMappingConsistent(r.1)
  {
    var pairs := seq(|s.tables|, j requires 0 <= j < |s.tables| => SourceTableToStaging(s.tables[j]));
    var stagingSchema := Schema(s.name + "_stg", seq(|pairs|, j requires 0 <= j < |pairs| => pairs[j].0));
    var mapping := SchemaMapping(s, stagingSchema, seq(|pairs|, j requires 0 <= j < |pairs| => pairs[j].1));
    (stagingSchema, mapping)
  }

  /**
    A source model becomes a staging model with one staging schema per source
    schema, in order, and the mapping whose source is the given model and
    whose target is exactly the returned model.
   */
  function SourceModelToStaging(m: PhysicalModel): (r: (PhysicalModel, PhysicalModelMapping))
    ensures r.1.sourceModel == m && r.1.targetModel == r.0
    ensures |r.0.schemas| == |m.schemas|
    ensures forall i :: 0 <= i < |m.schemas| ==> r.0.schemas[i] == SourceSchemaToStaging(m.schemas[i]).0
    ensures |r.1.schemaMappings| == |m.schemas|
    ensures forall i :: 0 <= i < |m.schemas| ==> r.1.schemaMappings[i] == SourceSchemaToStaging(m.schemas[i]).1
    ensures ModelMappingConsistent(r.1)
  {
    var pairs := seq(|m.schemas|, i requires 0 <= i < |m.schemas| => SourceSchemaToStaging(m.schemas[i]));
    var stagingModel := PhysicalModel(seq(|pairs|, i requires 0 <= i < |pairs| => pairs[i].0));
    var mapping := PhysicalModelMapping(m, stagingModel, seq(|pairs|, i requires 0 <= i < |pairs| => pairs[i].1));
    (stagingModel, mapping)
  }

  // ---------------------------------------------------------------------------
  // Staging to HDA

  /**
    The HDA column is a copy of the mapping's target column, and its mapping
    comes from that column.
   */
  function StagingColumnMappingToHda(cm: ColumnMapping): (r: ColumnMapping)
    ensures r.sourceColumn == cm.targetColumn
    ensures r.targetColumn == cm.targetColumn
  {
    var c := cm.targetColumn;
    var hdaColumn := Column(c.name, c.dataType, c.nullable, c.length, c.scale);
    ColumnMapping(c, hdaColumn)
  }

  /**
    The HDA table keeps the name of the mapping's target table; its columns
    are the copied targets of the column mappings, in order; its primary key
    is `pk_<name>` on `hda_timestamp_utc` followed by the primary-key columns
    of the mapping's source table; there are no foreign keys.  The new mapping
    goes from the old target table to the HDA table.
   */
  function StagingTableMappingToHda(tm: TableMapping): (r: TableMapping)
    ensures r.sourceTable == tm.targetTable
    ensures r.targetTable.name == tm.targetTable.name
    ensures r.targetTable.primaryKeyConstraint
         == PrimaryKeyConstraint("pk_" + tm.targetTable.name,
                                 ["hda_timestamp_utc"] + tm.sourceTable.primaryKeyConstraint.columnNames)
    ensures r.targetTable.foreignKeyConstraints == []
    ensures |r.columnMappings| == |tm.columnMappings| == |r.targetTable.columns|
    ensures forall i :: 0 <= i < |tm.columnMappings| ==>
              && r.targetTable.columns[i] == tm.columnMappings[i].targetColumn
              && r.columnMappings[i] == ColumnMapping(tm.columnMappings[i].targetColumn, r.targetTable.columns[i])
  {
    var hdaColumnMappings := seq(|tm.columnMappings|, i requires 0 <= i < |tm.columnMappings| =>
      StagingColumnMappingToHda(tm.columnMappings[i]));
    var hdaTable := Table(
      tm.targetTable.name,
      PrimaryKeyConstraint("pk_" + tm.targetTable.name,
                           ["hda_timestamp_utc"] + tm.sourceTable.primaryKeyConstraint.columnNames),
      seq(|hdaColumnMappings|, i requires 0 <= i < |hdaColumnMappings| => hdaColumnMappings[i].targetColumn),
      []);
    TableMapping(tm.targetTable, hdaTable, hdaColumnMappings)
  }

  /**
    The HDA schema is named after the mapping's SOURCE schema with `_hda`
    appended and holds the HDA tables in order; the new mapping goes from the
    old target schema to the HDA schema.
   */
  function StagingSchemaMappingToHda(sm: SchemaMapping): (r: SchemaMapping)
    ensures r.sourceSchema == sm.targetSchema
    ensures r.targetSchema.name == sm.sourceSchema.name + "_hda"
    ensures |r.tableMappings| == |sm.tableMappings|
    ensures forall j :: 0 <= j < |sm.tableMappings| ==> r.tableMappings[j] == StagingTableMappingToHda(sm.tableMappings[j])
    ensures |r.targetSchema.tables| == |r.tableMappings|
    ensures forall j :: 0 <= j < |r.tableMappings| ==> r.targetSchema.tables[j] == r.tableMappings[j].targetTable
  {
    var hdaTableMappings := seq(|sm.tableMappings|, j requires 0 <= j < |sm.tableMappings| =>
      StagingTableMappingToHda(sm.tableMappings[j]));
    var hdaSchema := Schema(
      sm.sourceSchema.name + "_hda",
      seq(|hdaTableMappings|, j requires 0 <= j < |hdaTableMappings| => hdaTableMappings[j].targetTable));
    SchemaMapping(sm.targetSchema, hdaSchema, hdaTableMappings)
  }

  /**
    The HDA mapping goes from the old mapping's target model to an HDA model
    whose schemas are exactly the target schemas of its schema mappings, in order.
   */
  function StagingModelMappingToHda(m: PhysicalModelMapping): (r: PhysicalModelMapping)
    ensures r.sourceModel == m.targetModel
    ensures |r.schemaMappings| == |m.schemaMappings|
    ensures forall i :: 0 <= i < |m.schemaMappings| ==> r.schemaMappings[i] == StagingSchemaMappingToHda(m.schemaMappings[i])
    ensures |r.targetModel.schemas| == |r.schemaMappings|
    ensures forall i :: 0 <= i < |r.schemaMappings| ==> r.targetModel.schemas[i] == r.schemaMappings[i].targetSchema
  {
    var hdaSchemaMappings := seq(|m.schemaMappings|, i requires 0 <= i < |m.schemaMappings| =>
      StagingSchemaMappingToHda(m.schemaMappings[i]));
    var hdaModel := PhysicalModel(
      seq(|hdaSchemaMappings|, i requires 0 <= i < |hdaSchemaMappings| => hdaSchemaMappings[i].targetSchema));
    PhysicalModelMapping(m.targetModel, hdaModel, hdaSchemaMappings)
  }

  // ---------------------------------------------------------------------------
  // Laws of the staging transform

  /**
    In a staging table the technical columns are not nullable, and a copied
    column is nullable exactly when its name is not in the source primary key.
   */
  lemma StagingNullabilityLaw(t: Table, k: nat)
    requires k < |t.columns| + 2
    ensures
      var staging := SourceTableToStaging(t).0;
      staging.columns[k].nullable <==> k >= 2 && staging.columns[k].name !in t.primaryKeyConstraint.columnNames
  {
    var staging := SourceTableToStaging(t).0;
    if k < 2 {
      assert staging.columns[k] == staging.columns[..2][k];
    } else {
      assert staging.columns[(k - 2) + 2] == SourceColumnToStaging(t.columns[k - 2], t).0;
    }
  }

  /** A staging table of a table whose primary key names existing columns is well formed. */
  lemma StagingTableWellFormed(t: Table)
    requires PrimaryKeyCovered(t)
    ensures WellFormedTable(SourceTableToStaging(t).0)
  {
    var staging := SourceTableToStaging(t).0;
    var names := ColumnNames(staging.columns);
    var sourceNames := ColumnNames(t.columns);
    forall n | n in staging.primaryKeyConstraint.columnNames
      ensures n in names
    {
      if n == "stg_runId" {
        assert staging.columns[1] == staging.columns[..2][1];
        assert names[1] == n;
      } else {
        assert n in t.primaryKeyConstraint.columnNames;
        var i :| 0 <= i < |sourceNames| && sourceNames[i] == n;
        assert staging.columns[i + 2] == SourceColumnToStaging(t.columns[i], t).0;
        assert names[i + 2] == n;
      }
    }
  }

  /** Staging every table of a model whose primary keys name existing columns gives well-formed tables only. */
  lemma StagingModelWellFormed(m: PhysicalModel)
    requires forall i, j :: 0 <= i < |m.schemas| && 0 <= j < |m.schemas[i].tables| ==>
               PrimaryKeyCovered(m.schemas[i].tables[j])
    ensures
      var staging := SourceModelToStaging(m).0;
      forall i, j :: 0 <= i < |staging.schemas| && 0 <= j < |staging.schemas[i].tables| ==>
        WellFormedTable(staging.schemas[i].tables[j])
  {
    var staging := SourceModelToStaging(m).0;
    forall i, j | 0 <= i < |staging.schemas| && 0 <= j < |staging.schemas[i].tables|
      ensures WellFormedTable(staging.schemas[i].tables[j])
    {
      StagingTableWellFormed(m.schemas[i].tables[j]);
    }
  }

  // ---------------------------------------------------------------------------
  // Laws of the HDA transform applied to a staging mapping

  /**
    The HDA table derived from a staging table mapping: its columns are the
    staging table's columns without the technical ones, so they have the
    source columns' names and the staging nullability; its mapping takes each
    of them from the staging column at the same position past the technical
    columns; its key is `hda_timestamp_utc` followed by the ORIGINAL source key.
   */
  lemma HdaTableOfStagingTable(t: Table)
    ensures
      var (staging, stagingMapping) := SourceTableToStaging(t);
      var hda := StagingTableMappingToHda(stagingMapping);
      && hda.sourceTable == staging
      && hda.targetTable.name == t.name
      && hda.targetTable.columns == staging.columns[2..]
      && ColumnNames(hda.targetTable.columns) == ColumnNames(t.columns)
      && ColumnMappingsAligned(hda, 2, 0)
      && hda.targetTable.primaryKeyConstraint
         == PrimaryKeyConstraint("pk_" + t.name, ["hda_timestamp_utc"] + t.primaryKeyConstraint.columnNames)
      && forall i :: 0 <= i < |t.columns| ==>
           (hda.targetTable.columns[i].nullable <==> t.columns[i].name !in t.primaryKeyConstraint.columnNames)
  {
    var (staging, stagingMapping) := SourceTableToStaging(t);
    var hda := StagingTableMappingToHda(stagingMapping);
    assert hda.targetTable.columns == staging.columns[2..];
    var names, sourceNames := ColumnNames(hda.targetTable.columns), ColumnNames(t.columns);
    assert forall i :: 0 <= i < |t.columns| ==> names[i] == sourceNames[i];
  }

  /**
    The HDA primary key names `hda_timestamp_utc`, which the HDA table does
    not have unless a source column happens to carry that name: HDA tables are
    not well formed.
   */
  lemma HdaPrimaryKeyNamesMissingColumn(t: Table)
    requires "hda_timestamp_utc" !in ColumnNames(t.columns)
    ensures !PrimaryKeyCovered(StagingTableMappingToHda(SourceTableToStaging(t).1).targetTable)
  {
    var hda := StagingTableMappingToHda(SourceTableToStaging(t).1).targetTable;
    HdaTableOfStagingTable(t);
    assert ColumnNames(hda.columns) == ColumnNames(t.columns);
    assert "hda_timestamp_utc" in hda.primaryKeyConstraint.columnNames;
  }

  /**
    Column lineage survives the HDA step: if the i-th column mapping relates
    source column `i + a` to target column `i + b`, then the i-th HDA column
    mapping relates column `i + b` of the old target table to HDA column `i`.
   */
  lemma HdaKeepsColumnAlignment(tm: TableMapping, a: nat, b: nat)
    requires ColumnMappingsAligned(tm, a, b)
    ensures ColumnMappingsAligned(StagingTableMappingToHda(tm), b, 0)
  {
  }

  /**
    Deriving the HDA mapping from a mapping that agrees with its models gives
    a mapping that agrees with its models.
   */
  lemma HdaPreservesConsistency(m: PhysicalModelMapping)
    requires ModelMappingConsistent(m)
    ensures ModelMappingConsistent(StagingModelMappingToHda(m))
  {
    var r := StagingModelMappingToHda(m);
    forall i | 0 <= i < |r.schemaMappings|
      ensures r.schemaMappings[i].sourceSchema == r.sourceModel.schemas[i]
      ensures SchemaMappingConsistent(r.schemaMappings[i])
    {
      var sm := m.schemaMappings[i];
      var hsm := r.schemaMappings[i];
      assert hsm == StagingSchemaMappingToHda(sm);
      forall j | 0 <= j < |hsm.tableMappings|
        ensures hsm.tableMappings[j].sourceTable == hsm.sourceSchema.tables[j]
      {
        assert hsm.tableMappings[j] == StagingTableMappingToHda(sm.tableMappings[j]);
      }
    }
  }

  /**
    Staging a model and deriving the HDA mapping: the HDA mapping goes from
    the staging model, agrees with its models, and names each HDA schema after
    the original source schema.
   */
  lemma HdaOfStagingModel(m: PhysicalModel)
    ensures
      var (staging, stagingMapping) := SourceModelToStaging(m);
      var hda := StagingModelMappingToHda(stagingMapping);
      && hda.sourceModel == staging
      && ModelMappingConsistent(hda)
      && |hda.targetModel.schemas| == |m.schemas|
      && forall i :: 0 <= i < |m.schemas| ==> hda.targetModel.schemas[i].name == m.schemas[i].name + "_hda"
  {
    var (staging, stagingMapping) := SourceModelToStaging(m);
    HdaPreservesConsistency(stagingMapping);
  }
}
