/**
  The whole chain: a logical model is made physical, the physical model is
  staged, and the staging mapping is turned into an HDA mapping.
 */
module Pipeline {
  import opened LogicalDomain
  import opened PhysicalDomain
  import opened PhysicalMappingDomain
  import opened LogicalToPhysical
  import opened StagingAndHda

  /**
    Along the chain from a logical model every staging table is well formed
    and keyed on `stg_runId, id`, and every HDA table is keyed on
    `hda_timestamp_utc, id`.
   */
  lemma ChainKeys(lm: LogicalModel)
    ensures
      var source := LogicalModelToPhysicalModel(lm);
      var (staging, stagingMapping) := SourceModelToStaging(source);
      var hda := StagingModelMappingToHda(stagingMapping).targetModel;
      && |staging.schemas| == |hda.schemas| == |lm.domains|
      && forall i, j :: 0 <= i < |lm.domains| && 0 <= j < |lm.domains[i].entities| ==>
           && |staging.schemas[i].tables| == |hda.schemas[i].tables| == |lm.domains[i].entities|
           && staging.schemas[i].tables[j].primaryKeyConstraint.columnNames == ["stg_runId", "id"]
           && WellFormedTable(staging.schemas[i].tables[j])
           && hda.schemas[i].tables[j].primaryKeyConstraint.columnNames == ["hda_timestamp_utc", "id"]
  {
    var source := LogicalModelToPhysicalModel(lm);
    var (staging, stagingMapping) := SourceModelToStaging(source);
    var hdaMapping := StagingModelMappingToHda(stagingMapping);
    var hda := hdaMapping.targetModel;
    forall i, j | 0 <= i < |lm.domains| && 0 <= j < |lm.domains[i].entities|
      ensures |staging.schemas[i].tables| == |hda.schemas[i].tables| == |lm.domains[i].entities|
      ensures staging.schemas[i].tables[j].primaryKeyConstraint.columnNames == ["stg_runId", "id"]
      ensures WellFormedTable(staging.schemas[i].tables[j])
      ensures hda.schemas[i].tables[j].primaryKeyConstraint.columnNames == ["hda_timestamp_utc", "id"]
    {
      var t := source.schemas[i].tables[j];
      EntityTableWellFormed(lm.domains[i].entities[j]);
      StagingTableWellFormed(t);
      var sm := stagingMapping.schemaMappings[i];
      assert sm == SourceSchemaToStaging(source.schemas[i]).1;
      assert sm.tableMappings[j] == SourceTableToStaging(t).1;
      assert hda.schemas[i] == StagingSchemaMappingToHda(sm).targetSchema;
      assert hda.schemas[i].tables[j] == StagingTableMappingToHda(sm.tableMappings[j]).targetTable;
    }
  }

  /** Staging the Order table. */
  lemma OrderStagingTable()
    ensures
      var staging := SourceTableToStaging(EntityToTable(OrderEntity)).0;
      && ColumnNames(staging.columns)
         == ["stg_timestamp_utc", "stg_runId", "id", "orderTimestamp_utc", "amount",
             "orderedBy_Customer_id", "orderFor_Product_id"]
      && staging.primaryKeyConstraint == PrimaryKeyConstraint("pk_Order", ["stg_runId", "id"])
      && staging.foreignKeyConstraints == []
      && !staging.columns[2].nullable
      && staging.columns[5].nullable
  {
    var order := EntityToTable(OrderEntity);
    OrderTableColumns();
    var staging := SourceTableToStaging(order).0;
    var names, sourceNames := ColumnNames(staging.columns), ColumnNames(order.columns);
    assert staging.columns[0] == staging.columns[..2][0];
    assert staging.columns[1] == staging.columns[..2][1];
    forall i | 0 <= i < 5
      ensures names[i + 2] == sourceNames[i]
    {
      assert staging.columns[i + 2] == SourceColumnToStaging(order.columns[i], order).0;
    }
    assert |names| == 7;
    assert names[..2] == ["stg_timestamp_utc", "stg_runId"];
    assert names[2..] == sourceNames;
    assert names == names[..2] + names[2..];
    assert "orderedBy_Customer_id" != "id";
  }

  /** The orders schema becomes `orders_stg` in staging and `orders_hda` in the HDA model. */
  lemma OrdersSchemaNames()
    ensures
      var (staging, stagingMapping) := SourceModelToStaging(LogicalModelToPhysicalModel(OrdersDomainModel));
      var hda := StagingModelMappingToHda(stagingMapping).targetModel;
      && |staging.schemas| == |hda.schemas| == 1
      && staging.schemas[0].name == "orders_stg"
      && hda.schemas[0].name == "orders_hda"
  {
    OrdersPhysicalModel();
    var (staging, stagingMapping) := SourceModelToStaging(LogicalModelToPhysicalModel(OrdersDomainModel));
    assert stagingMapping.schemaMappings[0].sourceSchema.name == "orders";
  }

  /**
    The HDA Order table: the source columns without technical columns, keyed
    on `hda_timestamp_utc` (which it does not have) and `id`.
   */
  lemma OrderHdaTable()
    ensures
      var hda := StagingTableMappingToHda(SourceTableToStaging(EntityToTable(OrderEntity)).1).targetTable;
      && ColumnNames(hda.columns)
         == ["id", "orderTimestamp_utc", "amount", "orderedBy_Customer_id", "orderFor_Product_id"]
      && hda.primaryKeyConstraint == PrimaryKeyConstraint("pk_Order", ["hda_timestamp_utc", "id"])
      && hda.foreignKeyConstraints == []
      && !PrimaryKeyCovered(hda)
  {
    var order := EntityToTable(OrderEntity);
    OrderTableColumns();
    HdaTableOfStagingTable(order);
    HdaPrimaryKeyNamesMissingColumn(order);
  }
}
