/**
 * What the database introspection layer hands to the generator. These
 * records stand in for SchemaCrawler's Column, ColumnDataType, Table and
 * Schema; only the attributes the generator reads are kept.
 */
module Catalog {
  import opened Results

  /** One column of a table, as reported by the catalog crawl. */
  datatype Column = Column(
    name: string,
    /** `getType().getName()`: the declared SQL type name, in whatever case the driver reports. */
    typeName: string,
    size: int,
    decimalDigits: int,
    isNullable: bool,
    isPartOfPrimaryKey: bool,
    /** `getType().isUserDefined()`. */
    isUserDefined: bool,
    /** `getType().getTypeMappedClass() == java.sql.Array.class`. */
    mapsToSqlArray: bool,
    /** `getAttribute("COLUMN_TYPE")`, absent when the driver does not report it. */
    columnType: Option<string>,
    remarks: Option<string>)

  /** A table: its name, its remarks (SQL comment) and its columns in declaration order. */
  datatype Table = Table(name: string, remarks: Option<string>, columns: seq<Column>)

  /** A database schema of the crawled catalog: `getCatalogName()` and `getName()`, either of which may be null. */
  datatype DbSchema = DbSchema(catalogName: Option<string>, name: Option<string>)
}
