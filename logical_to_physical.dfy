/**
  The logical-to-physical transform: one schema per domain, one table per
  entity.  A table has a synthetic `id` key column, a column per property
  and a key column plus a foreign key per relation.
 */
module LogicalToPhysical {
  import opened Wrappers
  import opened LogicalDomain
  import opened PhysicalDomain

  /** The datatype, length and scale a column takes over from a property. */
  datatype ColumnDatatype = ColumnDatatype(dataType: string, length: Option<int>, scale: Option<int>)

  /** Logical datatypes that have a physical rendering of their own. */
  const TypeMappingTable: map<string, ColumnDatatype> :=
    map[
      "string" := ColumnDatatype("nvarchar", Some(255), None),
      "timestamp" := ColumnDatatype("datetime2", None, None)
    ]

  /**
    The type-mapping policy: a logical datatype found in the table takes the
    table's entry, any other passes through unchanged without length and scale.
   */
  function ResolveDatatype(logical: string): (r: ColumnDatatype)
    ensures logical == "string" ==> r == ColumnDatatype("nvarchar", Some(255), None)
    ensures logical == "timestamp" ==> r == ColumnDatatype("datetime2", None, None)
    ensures logical != "string" && logical != "timestamp" ==> r == ColumnDatatype(logical, None, None)
    ensures r.length.Some? <==> logical == "string"
    ensures r.scale.None?
  {
    if logical in TypeMappingTable then TypeMappingTable[logical] else ColumnDatatype(logical, None, None)
  }

  /**
    Resolves a property's column datatype by starting from the property's own
    datatype without length and scale, and overwriting entries for the
    datatypes the policy knows.
   */
  method PropertyDatatypeToColumnDatatype(p: Property) returns (result: ColumnDatatype)
    ensures result == ResolveDatatype(p.dataType)
  {
    result := ColumnDatatype(p.dataType, None, None);
    if "string" == p.dataType {
      result := result.(dataType := "nvarchar");
      result := result.(length := Some(255));
    } else if "timestamp" == p.dataType {
      result := result.(dataType := "datetime2");
    }
  }

  /** The synthetic key column every table starts with. */
  function IdColumn(): (c: Column)
    ensures c.name == "id" && c.dataType == "uniqueidentifier" && !c.nullable
    ensures c.length.None? && c.scale.None?
  {
    NewColumn("id", "uniqueidentifier", false)
  }

  /** A property becomes a nullable column of the same name with the resolved datatype. */
  function PropertyToColumn(p: Property): (c: Column)
    ensures c.name == p.name && c.nullable
    ensures ColumnDatatype(c.dataType, c.length, c.scale) == ResolveDatatype(p.dataType)
  {
    var resolved := ResolveDatatype(p.dataType);
    Column(p.name, resolved.dataType, true, resolved.length, resolved.scale)
  }

  /** A relation becomes a non-nullable identifier column named `<role>_<entity>_id`. */
  function RelationToColumn(r: Relation): (c: Column)
    ensures c.name == r.role + "_" + r.entityName + "_id"
    ensures c.dataType == "uniqueidentifier" && !c.nullable
    ensures c.length.None? && c.scale.None?
  {
    NewColumn(r.role + "_" + r.entityName + "_id", "uniqueidentifier", false)
  }

  /**
    A relation becomes a foreign key `fk_<role>_<entity>` from its column to
    the `id` column of the related entity's table.
   */
  function RelationToForeignKeyConstraint(r: Relation): (fk: ForeignKeyConstraint)
    ensures fk.name == "fk_" + r.role + "_" + r.entityName
    ensures fk.columnNames == [RelationToColumn(r).name]
    ensures fk.foreignSchemaName == r.domainName && fk.foreignTableName == r.entityName
    ensures fk.foreignColumnNames == [IdColumn().name]
  {
    ForeignKeyConstraint(
      "fk_" + r.role + "_" + r.entityName,
      r.domainName,
      r.entityName,
      [r.role + "_" + r.entityName + "_id"],
      ["id"])
  }

  /**
    The table of an entity: the `id` column, then the property columns, then
    the relation columns, each group in declaration order; the primary key
    `pk_<entity>` on `id`; one foreign key per relation, in order.
   */
  function EntityToTable(e: Entity): (t: Table)
    ensures t.name == e.name
    ensures |t.columns| == 1 + |e.properties| + |e.relations|
    ensures t.columns[0] == IdColumn()
    ensures forall i :: 0 <= i < |e.properties| ==> t.columns[1 + i] == PropertyToColumn(e.properties[i])
    ensures forall j :: 0 <= j < |e.relations| ==>
              t.columns[1 + |e.properties| + j] == RelationToColumn(e.relations[j])
    ensures t.primaryKeyConstraint == PrimaryKeyConstraint("pk_" + e.name, [IdColumn().name])
    ensures |t.foreignKeyConstraints| == |e.relations|
    ensures forall j :: 0 <= j < |e.relations| ==>
              t.foreignKeyConstraints[j] == RelationToForeignKeyConstraint(e.relations[j])
  {
    var idColumn := NewColumn("id", "uniqueidentifier", false);
    var primaryKeyConstraint := PrimaryKeyConstraint("pk_" + e.name, ["id"]);
    Table(
      e.name,
      primaryKeyConstraint,
      [idColumn]
        + seq(|e.properties|, i requires 0 <= i < |e.properties| => PropertyToColumn(e.properties[i]))
        + seq(|e.relations|, j requires 0 <= j < |e.relations| => RelationToColumn(e.relations[j])),
      seq(|e.relations|, j requires 0 <= j < |e.relations| => RelationToForeignKeyConstraint(e.relations[j])))
  }

  /** A domain becomes a schema of the same name with one table per entity, in order. */
  function DomainToSchema(d: Domain): (s: Schema)
    ensures s.name == d.name
    ensures |s.tables| == |d.entities|
    ensures forall j :: 0 <= j < |d.entities| ==> s.tables[j] == EntityToTable(d.entities[j])
  {
    Schema(d.name, seq(|d.entities|, j requires 0 <= j < |d.entities| => EntityToTable(d.entities[j])))
  }

  /** A logical model becomes a physical model with one schema per domain, in order. */
  function LogicalModelToPhysicalModel(m: LogicalModel): (p: PhysicalModel)
    ensures |p.schemas| == |m.domains|
    ensures forall i :: 0 <= i < |m.domains| ==> p.schemas[i].name == m.domains[i].name
    ensures forall i :: 0 <= i < |m.domains| ==> |p.schemas[i].tables| == |m.domains[i].entities|
    ensures forall i, j :: 0 <= i < |m.domains| && 0 <= j < |m.domains[i].entities| ==>
              p.schemas[i].tables[j] == EntityToTable(m.domains[i].entities[j])
  {
    PhysicalModel(seq(|m.domains|, i requires 0 <= i < |m.domains| => DomainToSchema(m.domains[i])))
  }

  // ---------------------------------------------------------------------------
  // Laws of the transform

  /** The id and relation columns are the non-nullable ones; every property column is nullable. */
  lemma {:induction false} NullabilityLaw(e: Entity, k: nat)
    requires k < 1 + |e.properties| + |e.relations|
    ensures EntityToTable(e).columns[k].nullable <==> 1 <= k <= |e.properties|
  {
    var t := EntityToTable(e);
    if k == 0 {
    } else if k <= |e.properties| {
      assert t.columns[1 + (k - 1)] == PropertyToColumn(e.properties[k - 1]);
    } else {
      var j := k - 1 - |e.properties|;
      assert t.columns[1 + |e.properties| + j] == RelationToColumn(e.relations[j]);
    }
  }

  /**
    Every table of an entity is well formed: its key column exists, each
    foreign-key column exists, and each foreign key names as many referenced
    columns as local ones.
   */
  lemma EntityTableWellFormed(e: Entity)
    ensures WellFormedTable(EntityToTable(e))
  {
    EntityPrimaryKeyCovered(e);
    EntityForeignKeysCovered(e);
    EntityForeignKeysParallel(e);
  }

  /** The primary key of an entity's table is on its first column, `id`. */
  lemma EntityPrimaryKeyCovered(e: Entity)
    ensures PrimaryKeyCovered(EntityToTable(e))
  {
    var t := EntityToTable(e);
    var names := ColumnNames(t.columns);
    assert t.primaryKeyConstraint.columnNames == [names[0]];
  }

  /** Every foreign-key column of an entity's table is one of its columns. */
  lemma EntityForeignKeysCovered(e: Entity)
    ensures ForeignKeysCovered(EntityToTable(e))
  {
    var t := EntityToTable(e);
    var names := ColumnNames(t.columns);
    forall j | 0 <= j < |t.foreignKeyConstraints|
      ensures forall n :: n in t.foreignKeyConstraints[j].columnNames ==> n in names
    {
      ForeignKeyColumnAt(e, j);
      assert names[1 + |e.properties| + j] in names;
    }
    ForeignKeysCoveredByPosition(t);
  }

  /** Every foreign key of an entity's table references exactly one column for its one local column. */
  lemma EntityForeignKeysParallel(e: Entity)
    ensures ForeignKeysParallel(EntityToTable(e))
  {
    var t := EntityToTable(e);
    forall fk | fk in t.foreignKeyConstraints
      ensures |fk.columnNames| == |fk.foreignColumnNames|
    {
      var j :| 0 <= j < |t.foreignKeyConstraints| && t.foreignKeyConstraints[j] == fk;
      assert fk == RelationToForeignKeyConstraint(e.relations[j]);
    }
  }

  /** The j-th foreign key of an entity's table is on the column at position `1 + |properties| + j`. */
  lemma ForeignKeyColumnAt(e: Entity, j: nat)
    requires j < |e.relations|
    ensures
      var t := EntityToTable(e);
      t.foreignKeyConstraints[j].columnNames == [ColumnNames(t.columns)[1 + |e.properties| + j]]
  {
    var t := EntityToTable(e);
    assert t.columns[1 + |e.properties| + j] == RelationToColumn(e.relations[j]);
    assert t.foreignKeyConstraints[j] == RelationToForeignKeyConstraint(e.relations[j]);
  }

  /** Every table of a transformed model is well formed. */
  lemma PhysicalModelWellFormed(m: LogicalModel)
    ensures forall i, j ::
              0 <= i < |LogicalModelToPhysicalModel(m).schemas| &&
              0 <= j < |LogicalModelToPhysicalModel(m).schemas[i].tables| ==>
                WellFormedTable(LogicalModelToPhysicalModel(m).schemas[i].tables[j])
  {
    var p := LogicalModelToPhysicalModel(m);
    forall i, j | 0 <= i < |p.schemas| && 0 <= j < |p.schemas[i].tables|
      ensures WellFormedTable(p.schemas[i].tables[j])
    {
      EntityTableWellFormed(m.domains[i].entities[j]);
    }
  }

  /**
    When a relation names an entity that the model has, its foreign key
    resolves: the referenced schema and table exist under the names the
    foreign key gives, and the referenced columns are that table's primary key.
   */
  lemma ForeignKeyReferencesPrimaryKey(m: LogicalModel, d: nat, e: nat, j: nat, td: nat, te: nat)
    requires d < |m.domains| && e < |m.domains[d].entities| && j < |m.domains[d].entities[e].relations|
    requires td < |m.domains| && te < |m.domains[td].entities|
    requires m.domains[td].name == m.domains[d].entities[e].relations[j].domainName
    requires m.domains[td].entities[te].name == m.domains[d].entities[e].relations[j].entityName
    ensures
      var p := LogicalModelToPhysicalModel(m);
      var fk := p.schemas[d].tables[e].foreignKeyConstraints[j];
      var target := p.schemas[td].tables[te];
      && p.schemas[td].name == fk.foreignSchemaName
      && target.name == fk.foreignTableName
      && target.primaryKeyConstraint.columnNames == fk.foreignColumnNames
      && forall n :: n in fk.foreignColumnNames ==> n in ColumnNames(target.columns)
  {
    var p := LogicalModelToPhysicalModel(m);
    assert ColumnNames(p.schemas[td].tables[te].columns)[0] == "id";
  }

  /** An entity without properties and relations yields just the `id` column and its primary key. */
  lemma EmptyEntityTable(name: string)
    ensures EntityToTable(NewEntity(name))
         == Table(name, PrimaryKeyConstraint("pk_" + name, ["id"]), [IdColumn()], [])
  {
  }

  /** Empty inputs give empty outputs. */
  lemma EmptyModelTransform(name: string)
    ensures DomainToSchema(NewDomain(name)) == Schema(name, [])
    ensures LogicalModelToPhysicalModel(NewLogicalModel()) == PhysicalModel([])
  {
  }

  // ---------------------------------------------------------------------------
  // The orders example

  const CustomerEntity := Entity("Customer", [Property("address", "string")], [])

  const ProductEntity := Entity("Product", [Property("description", "string")], [])

  const OrderEntity :=
    Entity("Order",
      [Property("orderTimestamp_utc", "timestamp"), Property("amount", "int")],
      [Relation("orderedBy", "orders", "Customer"), Relation("orderFor", "orders", "Product")])

  const OrdersDomainModel := LogicalModel([Domain("orders", [CustomerEntity, ProductEntity, OrderEntity])])

  /** The physical orders model: one schema `orders` with the tables Customer, Product and Order. */
  lemma OrdersPhysicalModel()
    ensures
      var p := LogicalModelToPhysicalModel(OrdersDomainModel);
      && |p.schemas| == 1
      && p.schemas[0] == Schema("orders", [EntityToTable(CustomerEntity), EntityToTable(ProductEntity), EntityToTable(OrderEntity)])
  {
  }

  /** The relation columns of the Order table are named after role and entity. */
  lemma OrderRelationColumnNames()
    ensures RelationToColumn(OrderEntity.relations[0]).name == "orderedBy_Customer_id"
    ensures RelationToColumn(OrderEntity.relations[1]).name == "orderFor_Product_id"
  {
  }

  /** The columns of the Order table: `id`, the properties, the relation columns. */
  lemma OrderTableColumns()
    ensures
      ColumnNames(EntityToTable(OrderEntity).columns)
      == ["id", "orderTimestamp_utc", "amount", "orderedBy_Customer_id", "orderFor_Product_id"]
  {
    var order := EntityToTable(OrderEntity);
    var names := ColumnNames(order.columns);
    OrderRelationColumnNames();
    assert order.columns[1] == PropertyToColumn(OrderEntity.properties[0]);
    assert order.columns[2] == PropertyToColumn(OrderEntity.properties[1]);
    assert order.columns[3] == RelationToColumn(OrderEntity.relations[0]);
    assert order.columns[4] == RelationToColumn(OrderEntity.relations[1]);
    assert |names| == 5;
  }

  /** The key and relation columns of the Order table are non-nullable identifiers. */
  lemma OrderIdentifierColumnTypes()
    ensures
      var order := EntityToTable(OrderEntity);
      && FullType(order.columns[0]) == "uniqueidentifier NOT NULL"
      && FullType(order.columns[3]) == "uniqueidentifier NOT NULL"
      && FullType(order.columns[4]) == "uniqueidentifier NOT NULL"
  {
    var order := EntityToTable(OrderEntity);
    assert order.columns[3] == RelationToColumn(OrderEntity.relations[0]);
    assert order.columns[4] == RelationToColumn(OrderEntity.relations[1]);
  }

  /** The property columns of the Order table are nullable, a timestamp becoming `datetime2`. */
  lemma OrderPropertyColumnTypes()
    ensures
      var order := EntityToTable(OrderEntity);
      && FullType(order.columns[1]) == "datetime2 NULL"
      && FullType(order.columns[2]) == "int NULL"
  {
    var order := EntityToTable(OrderEntity);
    assert order.columns[1] == PropertyToColumn(OrderEntity.properties[0]);
    assert order.columns[2] == PropertyToColumn(OrderEntity.properties[1]);
  }

  /** The foreign keys of the Order table are named after role and entity. */
  lemma OrderForeignKeyNames()
    ensures RelationToForeignKeyConstraint(OrderEntity.relations[0]).name == "fk_orderedBy_Customer"
    ensures RelationToForeignKeyConstraint(OrderEntity.relations[1]).name == "fk_orderFor_Product"
  {
  }

  /** The keys of the Order table. */
  lemma OrderTableKeys()
    ensures
      var order := EntityToTable(OrderEntity);
      && order.primaryKeyConstraint == PrimaryKeyConstraint("pk_Order", ["id"])
      && order.foreignKeyConstraints == [
           ForeignKeyConstraint("fk_orderedBy_Customer", "orders", "Customer", ["orderedBy_Customer_id"], ["id"]),
           ForeignKeyConstraint("fk_orderFor_Product", "orders", "Product", ["orderFor_Product_id"], ["id"])]
  {
    var order := EntityToTable(OrderEntity);
    OrderRelationColumnNames();
    OrderForeignKeyNames();
    assert order.foreignKeyConstraints[0] == RelationToForeignKeyConstraint(OrderEntity.relations[0]);
    assert order.foreignKeyConstraints[1] == RelationToForeignKeyConstraint(OrderEntity.relations[1]);
    assert |order.foreignKeyConstraints| == 2;
  }

  /** A string property is declared `nvarchar(255) NULL`. */
  lemma CustomerAddressColumn()
    ensures
      var customer := EntityToTable(CustomerEntity);
      && |customer.columns| == 2
      && FullType(customer.columns[1]) == "nvarchar(255) NULL"
  {
    var customer := EntityToTable(CustomerEntity);
    assert customer.columns[1] == PropertyToColumn(CustomerEntity.properties[0]);
    assert customer.columns[1] == Column("address", "nvarchar", true, Some(255), None);
    FullTypeStringExample();
  }
}
