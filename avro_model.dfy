/**
 * The values the generator builds: resolved Avro types, fields and the
 * state of a schema under construction.
 */
module AvroModel {
  import opened Results

  /**
   * A decimal column. Decimal.java is not part of this model: the variant
   * carries the column's size as precision and its decimal digits as scale,
   * and the primitive and logical type names Avro prescribes for decimals.
   */
  datatype DecimalType = DecimalType(precision: int, scale: int, javaClass: string)
  {
    function PrimitiveType(): string { "bytes" }
    function LogicalType(): string { "decimal" }
  }

  /** A date column. Date.java is not part of this model; Avro dates are an `int` with logical type `date`. */
  datatype DateType = DateType
  {
    function PrimitiveType(): string { "int" }
    function LogicalType(): string { "date" }
  }

  /** What the Time and Timestamp classes store: a primitive type, a logical type and a Java class name. */
  datatype TemporalType = TemporalType(primitiveType: string, logicalType: string, javaClass: string)

  /** The concrete type of a field, without its nullability. */
  datatype Type =
    | Primitive(primitiveType: string)
    | Decimal(decimal: DecimalType)
    | Date(date: DateType)
    | Time(time: TemporalType)
    | Timestamp(timestamp: TemporalType)
    | Enum(enumName: string, symbols: seq<string>)
    | Array(items: Type)

  /** AvroType: a concrete type and whether the field may be null. */
  datatype AvroType = AvroType(base: Type, nullable: bool)

  /** AvroField: the mapped field name and its type. */
  datatype AvroField = AvroField(name: string, avroType: AvroType)

  /** Why a column could not be mapped (the exceptions the Java code lets escape). */
  datatype MappingError =
    /** The unknown-type resolver failed; its message. */
    | ResolverFailed(message: string)
    /** An enum column without a `COLUMN_TYPE` attribute (a NullPointerException in Java). */
    | MissingColumnType(column: string)
    /** An array column whose type name is empty (`substring(1)` throws). */
    | EmptyArrayTypeName

  /**
   * Everything an AvroSchema holds: name, namespace and doc are fixed at
   * construction, the two field lists and the custom properties (an
   * insertion-ordered map, kept as a list of distinct keys) may still grow.
   */
  datatype SchemaState = SchemaState(
    name: string,
    namespace: string,
    doc: Option<string>,
    fields: seq<AvroField>,
    keys: seq<AvroField>,
    customProperties: seq<(string, string)>)

  /** One change a post-processor makes to a freshly built schema. */
  datatype PostEdit =
    | PutCustomProperty(key: string, value: string)
    | AppendField(field: AvroField)
    | AppendKey(field: AvroField)
}
