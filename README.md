# Model-driven data warehouse generation in Dafny

This project models the metadata transforms of a model-driven data-warehouse
generator. The generator starts from a **logical model**: domains of entities,
where each entity has typed properties and relations to other entities. It then
derives three models:

1. the **physical source model**, with one schema per domain and one table per
   entity. Each table has an `id` key, one column per property, and one column
   plus one foreign key per relation;
2. a **staging model**, together with the mapping from source to staging. Each
   table gains the technical columns `stg_timestamp_utc` and `stg_runId`, and
   its primary key is extended in front with `stg_runId`;
3. a **historical data archive (HDA) model**, derived from the staging mapping,
   together with a mapping from staging to HDA.

It also models the type text (`fulltype`) a column is declared with in
generated DDL, such as `nvarchar(255) NOT NULL`.

Every record of the program is a value here: a Dafny `datatype` with ordered
`seq` children. Each transform is a function, specified by what it builds.
Properties that relate several transforms are lemmas. The property-datatype
resolution is a `method`, because the program works by overwriting entries of
a dictionary. It is proved equal to a table-driven policy, `ResolveDatatype`.
Integers in the type text are rendered by `Decimal.IntToString`, which is
proved injective through a parser that round-trips it. That proof lets
`FullTypeDetermines` show that, for a fixed datatype, the full type determines
the nullability and the length, and the scale whenever a length is given. It
determines no more than that: a scale given without a length is not rendered
(`FullTypeIgnoresScaleWithoutLength`). Across datatypes the text can be
ambiguous, because a datatype is copied verbatim: datatype `x NOT` made
nullable and datatype `x` made non-nullable both render as `x NOT NULL`
(`FullTypeAmbiguousAcrossDatatypes`).

Modules, in dependency order:
- `Wrappers`: `Option`.
- `Decimal`: integer rendering.
- `LogicalDomain`: the logical records.
- `PhysicalDomain`: the physical records, table well-formedness, `FullType`.
- `PhysicalMappingDomain`: the mapping records and their agreement with the
  models they relate.
- `LogicalToPhysical`: the logical-to-physical transform and the orders example.
- `StagingAndHda`: the staging and HDA transforms.
- `Pipeline`: the whole chain.

`src/article-01.py` and `src/article_01.py` are identical in lines 1-142, which
hold the transform and the orders example. They differ only in the DDL template
that follows. Rows below cite either file.

Where the code and its own documentation differ, the model follows the code:
- The docstring of `fulltype` (`src/domain/physical_domain.py:19`) shows
  `numeric(10,3) NULL`. The code renders `numeric(10, 3) NULL`, with a space
  after the comma. See `FullTypeScaleExample`.
- The HDA primary key (`src/article_02.py:147`) is `hda_timestamp_utc` followed
  by the source key. The HDA table has no column of that name, because the HDA
  transform copies only the mapped columns. The model keeps this behaviour and
  proves it (`HdaPrimaryKeyNamesMissingColumn`).
- The HDA schema is named after the mapping's source schema
  (`src/article_02.py:130`). Applied to a staging mapping, it is therefore
  `orders_hda`, not `orders_stg_hda`.

## Model

The table maps members to the behaviour of the source. It leaves out the
proof steps behind `FullTypeDetermines`: `FullTypeParts`, `TailStart`,
`TailWithLength`, `SplitAtStop`, `FirstStopAt`, `IntTextNoStop` and the
string-regrouping lemmas.

| member | source | states |
|---|---|---|
| Decimal.NatToString | src/domain/physical_domain.py:29-31 | the text of a natural number is a non-empty digit string with no leading zero, one digit exactly below 10 |
| Decimal.IntToString | src/domain/physical_domain.py:29-31 | the text of an integer is non-empty and starts with `-` exactly when the integer is negative |
| Decimal.IntToStringChars | src/domain/physical_domain.py:29-31 | the text of an integer holds only digits after its first character, which is a digit or a minus sign, so it never contains the `,` or `)` that delimit it in a type text |
| Decimal.ParseNatOfNatToString | src/domain/physical_domain.py:29-31 | reading back the text of a natural number gives that number |
| Decimal.NatToStringOfParseNat | src/domain/physical_domain.py:29-31 | rendering the value of a canonical digit string gives that string back, the other direction of the round trip |
| Decimal.IntToStringInjective | src/domain/physical_domain.py:29-31 | distinct integers have distinct texts |
| LogicalDomain.NewEntity | src/logical_domain.py:17-21 | an entity built from a name alone has no properties and no relations |
| LogicalDomain.NewDomain | src/logical_domain.py:24-27 | a domain built from a name alone has no entities |
| LogicalDomain.NewLogicalModel | src/logical_domain.py:30-32 | a model built without arguments has no domains |
| PhysicalDomain.Defaults | src/domain/physical_domain.py:4-71 | an omitted length or scale is absent, and every omitted child list (key columns, tables, schemas) is empty |
| PhysicalDomain.FullType | src/domain/physical_domain.py:12-37 | the full type starts with the datatype and ends with ` NULL` or ` NOT NULL` as the column is nullable; a `(` follows the datatype exactly when a length is given; without a length nothing but the nullability follows |
| PhysicalDomain.FullTypeIgnoresScaleWithoutLength | src/domain/physical_domain.py:28-33 | a scale given without a length is not rendered |
| PhysicalDomain.FullTypeAmbiguousAcrossDatatypes | src/domain/physical_domain.py:33-35 | the datatype is copied verbatim, so a nullable column of datatype `x NOT` and a non-nullable one of datatype `x` both render as `x NOT NULL` |
| PhysicalDomain.NullTextInjective | src/domain/physical_domain.py:35 | `NULL` and `NOT NULL` tell the two nullabilities apart |
| PhysicalDomain.AfterLengthDetermines | src/domain/physical_domain.py:28-35 | the text after the rendered length determines the scale and the nullability |
| PhysicalDomain.ScaleTailDetermines | src/domain/physical_domain.py:29 | the text after `length,` determines the scale and the nullability |
| PhysicalDomain.FullTypeDetermines | src/domain/physical_domain.py:12-37 | for one datatype, equal full types mean equal nullability and length, and equal scale whenever a length is given: the rendering loses only the scale of a column without length |
| PhysicalDomain.NullTextSuffixes | src/domain/physical_domain.py:35 | the nullability suffix is ` NULL` for a nullable column and ` NOT NULL` otherwise |
| PhysicalDomain.FullTypePlainExample | src/domain/physical_domain.py:19 | a nullable `int` column without length renders as `int NULL` |
| PhysicalDomain.FullTypeLengthExample | src/domain/physical_domain.py:19 | a non-nullable `nvarchar` of length 255 renders as `nvarchar(255) NOT NULL` |
| PhysicalDomain.FullTypeStringExample | src/domain/physical_domain.py:30-35 | a nullable `nvarchar` of length 255 renders as `nvarchar(255) NULL` |
| PhysicalDomain.FullTypeScaleExample | src/domain/physical_domain.py:28-35 | a nullable `numeric` of length 10 and scale 3 renders as `numeric(10, 3) NULL`, with the space the code writes |
| PhysicalMappingDomain.MappingDefaults | src/domain/physical_mapping_domain.py:6-33 | mappings built without child mappings have empty ones and keep the objects they relate |
| LogicalToPhysical.ResolveDatatype | src/article_01.py:119-137 | `string` resolves to `nvarchar` of length 255, `timestamp` to `datetime2`, and any other datatype passes through unchanged; a length is present exactly for `string`; there is never a scale |
| LogicalToPhysical.PropertyDatatypeToColumnDatatype | src/article_01.py:119-137 | the dictionary-overwriting resolution computes exactly the table-driven policy `ResolveDatatype` |
| LogicalToPhysical.IdColumn | src/article_01.py:72-76 | the key column is a non-nullable `uniqueidentifier` named `id` without length or scale |
| LogicalToPhysical.PropertyToColumn | src/article_01.py:93-98 | a property becomes a nullable column of the same name whose datatype, length and scale are the resolved ones |
| LogicalToPhysical.RelationToColumn | src/article_01.py:101-106 | a relation becomes a non-nullable `uniqueidentifier` column named `<role>_<entity>_id` |
| LogicalToPhysical.RelationToForeignKeyConstraint | src/article_01.py:109-116 | a relation becomes the foreign key `fk_<role>_<entity>` from exactly the relation's column to the `id` column of the related entity's table in the related domain's schema |
| LogicalToPhysical.EntityToTable | src/article_01.py:71-90 | the table of an entity has its name; it holds `id`, then one column per property, then one per relation, in order; its key is `pk_<entity>` on `id`; it has one foreign key per relation, in order |
| LogicalToPhysical.DomainToSchema | src/article_01.py:64-68 | a domain becomes a schema of its name with the tables of its entities, in order |
| LogicalToPhysical.LogicalModelToPhysicalModel | src/article_01.py:58-61 | a model becomes one schema per domain, in order, each holding the entity tables |
| LogicalToPhysical.NullabilityLaw | src/article-01.py:72-106 | a column of an entity table is nullable exactly when it is a property column |
| LogicalToPhysical.EntityTableWellFormed | src/article-01.py:71-116 | every entity table is well formed: key columns exist, foreign-key columns exist, and every foreign key has as many referenced columns as local ones |
| LogicalToPhysical.EntityPrimaryKeyCovered | src/article_01.py:72-87 | the primary key of an entity table names an existing column |
| LogicalToPhysical.EntityForeignKeysCovered | src/article_01.py:83-116 | every foreign-key column of an entity table is one of its columns |
| LogicalToPhysical.EntityForeignKeysParallel | src/article_01.py:109-116 | every foreign key has one referenced column per local column |
| LogicalToPhysical.ForeignKeyColumnAt | src/article_01.py:83-116 | the j-th foreign key is on the column at position 1 + number of properties + j |
| LogicalToPhysical.PhysicalModelWellFormed | src/article_01.py:58-116 | every table of a transformed model is well formed |
| LogicalToPhysical.ForeignKeyReferencesPrimaryKey | src/article-01.py:71-116 | when a relation names an entity the model has, its foreign key names that entity's schema and table and references exactly that table's primary-key columns, which exist |
| LogicalToPhysical.EmptyEntityTable | src/article_01.py:71-90 | an entity without properties and relations becomes a table with just `id`, keyed on it, without foreign keys |
| LogicalToPhysical.EmptyModelTransform | src/article_01.py:58-68 | an empty domain becomes an empty schema and an empty model an empty physical model |
| LogicalToPhysical.OrdersPhysicalModel | src/article_01.py:4-68 | the orders model becomes one schema `orders` with the Customer, Product and Order tables |
| LogicalToPhysical.OrderRelationColumnNames | src/article_01.py:39-50 | the Order relations give the columns `orderedBy_Customer_id` and `orderFor_Product_id` |
| LogicalToPhysical.OrderTableColumns | src/article_01.py:4-90 | the Order table has the columns `id`, `orderTimestamp_utc`, `amount`, `orderedBy_Customer_id`, `orderFor_Product_id` |
| LogicalToPhysical.OrderIdentifierColumnTypes | src/article-01.py:72-106 | the Order key and relation columns are `uniqueidentifier NOT NULL` |
| LogicalToPhysical.OrderPropertyColumnTypes | src/article_01.py:119-137 | the Order properties are `datetime2 NULL` (from `timestamp`) and `int NULL` (passed through) |
| LogicalToPhysical.OrderForeignKeyNames | src/article_01.py:109-116 | the Order foreign keys are named `fk_orderedBy_Customer` and `fk_orderFor_Product` |
| LogicalToPhysical.OrderTableKeys | src/article_01.py:71-116 | the Order table is keyed `pk_Order(id)` and has exactly the two foreign keys to `orders.Customer(id)` and `orders.Product(id)` |
| LogicalToPhysical.CustomerAddressColumn | src/article_01.py:131-133 | the `string` property `address` is declared `nvarchar(255) NULL` |
| StagingAndHda.CreateTechnicalStagingColumns | src/article_02.py:65-77 | the technical columns are `stg_timestamp_utc` (`datetime2`) and `stg_runId` (`uniqueidentifier`), both non-nullable without length or scale |
| StagingAndHda.SourceColumnToStaging | src/article_02.py:80-95 | a staging column differs from its source column only in nullability, which holds exactly when the name is not in the source primary key; the mapping relates the two |
| StagingAndHda.SourceTableToStaging | src/article_02.py:40-62 | a staging table keeps the name, starts with the technical columns followed by the staged source columns in order, keeps the key name with `stg_runId` prepended to its columns, drops the foreign keys; its mapping aligns source column i with staging column i + 2 |
| StagingAndHda.SourceSchemaToStaging | src/article_02.py:22-37 | a staging schema is named `<source>_stg`, holds the staging tables in order, and its mapping agrees with both schemas |
| StagingAndHda.SourceModelToStaging | src/article_02.py:5-19 | the staging mapping goes from the given model to exactly the returned staging model and agrees with both |
| StagingAndHda.StagingColumnMappingToHda | src/article_02.py:160-172 | the HDA column is a copy of the mapping's target column, which becomes the new source |
| StagingAndHda.StagingTableMappingToHda | src/article_02.py:141-157 | the HDA table keeps the target table's name; its columns are the copied target columns in order; its key is `pk_<name>` on `hda_timestamp_utc` followed by the source table's key columns; there are no foreign keys |
| StagingAndHda.StagingSchemaMappingToHda | src/article_02.py:127-138 | the HDA schema is named after the mapping's source schema with `_hda` and holds the HDA tables in order; the new mapping starts from the old target schema |
| StagingAndHda.StagingModelMappingToHda | src/article_02.py:114-124 | the HDA mapping starts from the old target model and its model holds exactly the HDA schemas, in order |
| StagingAndHda.StagingNullabilityLaw | src/article_02.py:40-95 | in a staging table the technical columns are not nullable and a copied column is nullable exactly when its name is not in the source key |
| StagingAndHda.StagingTableWellFormed | src/article_02.py:40-62 | staging a table whose key names existing columns gives a well-formed table |
| StagingAndHda.StagingModelWellFormed | src/article_02.py:5-62 | staging a model whose keys name existing columns gives only well-formed tables |
| StagingAndHda.HdaTableOfStagingTable | src/article_02.py:141-172 | the HDA table of a staged table has the staging columns without the technical ones, so it has the source names and the staging nullability; its mapping aligns staging column i + 2 with HDA column i; its key is `hda_timestamp_utc` plus the original source key |
| StagingAndHda.HdaPrimaryKeyNamesMissingColumn | src/article_02.py:147 | unless a source column is called `hda_timestamp_utc`, the HDA key names a column the HDA table does not have |
| StagingAndHda.HdaKeepsColumnAlignment | src/article_02.py:141-172 | for any table mapping whose column mappings line up with its tables at offsets a and b, the derived HDA mapping lines up column b + i of the old target table with HDA column i |
| StagingAndHda.HdaPreservesConsistency | src/article_02.py:114-157 | deriving the HDA mapping from a mapping that agrees with its models gives a mapping that agrees with its models |
| StagingAndHda.HdaOfStagingModel | src/article_02.py:114-138 | after staging a model, the HDA mapping goes from the staging model, agrees with its models, and names each HDA schema `<source>_hda` |
| Pipeline.ChainKeys | src/article_02.py:175-198 | along the whole chain from a logical model, every staging table is well formed and keyed on `stg_runId, id`, and every HDA table is keyed on `hda_timestamp_utc, id` |
| Pipeline.OrderStagingTable | src/article_02.py:182-185 | the staged Order table has the two technical columns followed by the five Order columns, the key `pk_Order(stg_runId, id)` and no foreign keys; `id` is not nullable and a relation column is |
| Pipeline.OrdersSchemaNames | src/article_02.py:182-194 | the orders schema becomes `orders_stg` in staging and `orders_hda` in the HDA model |
| Pipeline.OrderHdaTable | src/article_02.py:191-196 | the HDA Order table has the five Order columns, the key `pk_Order(hda_timestamp_utc, id)`, no foreign keys, and a key that is not covered by its columns |

## Left out

- DDL and ETL code generation (`dml_template_text`, `generate_code`, `generate_dml_code` in `src/article_01.py` and `src/article-01.py`): Jinja template rendering is text production outside the metadata transforms.
- `generate_staging_etl_code` and `generate_hda_etl_code` (`src/article_02.py:98-111`): they read template files and render them.
- The `__main__` blocks, `orders_database_model` and `dml_code` as printed output, the output file and its timestamp: file I/O and the clock. The orders example itself is modelled as constants and lemmas.
- `src/article_utils.py` (notebook display helpers) and `article-01/project_path.py` (import path set-up): these do not concern the model.
- Object identity: the program shares `Column` and `Table` objects between a mapping and the models it relates. Here every record is a value, so sharing shows up as equality. Aliasing and later in-place mutation of shared objects are not captured.
- Input validation: the program validates nothing. Duplicate names, relations to missing entities and keys over missing columns pass through unchanged, and so they do in the model. `ForeignKeyReferencesPrimaryKey` and `StagingTableWellFormed` state their assumptions explicitly.
- Column lengths and scales are unbounded integers. Python's `int` is unbounded too, so there is no width to model.
- The HDA transform as written has no load-process columns, void flag, validity interval or column expressions, so neither has the model.
- `PhysicalDomain.FullTypeDetermines`: does not claim that the scale is recoverable when no length is given, because the code does not render the scale in that case (`FullTypeIgnoresScaleWithoutLength`).
