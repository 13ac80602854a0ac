/**
 * AvroConfig: the flags and callbacks that tune how tables become Avro
 * schemas. The class keeps the source's mutable fields and fluent setters;
 * `View()` takes an immutable snapshot that the pure mapping functions read.
 */
module Config {
  import opened Results
  import Catalog
  import AvroModel

  const TimeMillis := "time-millis"
  const TimeMicros := "time-micros"
  const TimestampMillis := "timestamp-millis"
  const TimestampMicros := "timestamp-micros"

  /** Canonical names of the default Java classes for decimals and dates. */
  const BigDecimalClass := "java.math.BigDecimal"
  const LocalDateTimeClass := "java.time.LocalDateTime"

  /**
   * The user's post-processor. Java's callback may do anything with the
   * schema; here it looks at the assembled schema and the table and answers
   * with the changes it makes.
   */
  type PostProcessor = (AvroModel.SchemaState, Catalog.Table) -> seq<AvroModel.PostEdit>

  /** A snapshot of every AvroConfig field. */
  datatype ConfigView = ConfigView(
    representEnumsAsStrings: bool,
    nullableTrueByDefault: bool,
    allFieldsDefaultNull: bool,
    useSqlCommentsAsDoc: bool,
    timesInMicroseconds: bool,
    timestampsInMicroseconds: bool,
    decimalTypeClass: string,
    dateTypeClass: string,
    namespace: string,
    schemaNameMapper: string -> string,
    fieldNameMapper: string -> string,
    unknownTypeResolver: string -> Result<string, string>,
    postProcessor: PostProcessor)
  {
    /** `getDefaultTimeLogicalType`. */
    function DefaultTimeLogicalType(): (r: string)
      ensures r == TimeMicros || r == TimeMillis
      ensures r == TimeMicros <==> timesInMicroseconds
    {
      if timesInMicroseconds then TimeMicros else TimeMillis
    }

    /** `getDefaultTimestampLogicalType`. */
    function DefaultTimestampLogicalType(): (r: string)
      ensures r == TimestampMicros || r == TimestampMillis
      ensures r == TimestampMicros <==> timestampsInMicroseconds
    {
      if timestampsInMicroseconds then TimestampMicros else TimestampMillis
    }
  }

  /** The default unknown-type resolver: it always fails with the same message. */
  function RejectUnknownType(dbType: string): Result<string, string>
  {
    Failure("unknown data type: " + dbType)
  }

  /** What `new AvroConfig(namespace)` holds before any setter runs. */
  function Defaults(namespace: string): ConfigView
  {
    ConfigView(
      false, false, false, false, false, false,
      BigDecimalClass, LocalDateTimeClass, namespace,
      tableName => tableName,
      columnName => columnName,
      RejectUnknownType,
      (schema, table) => [])
  }

  /** The defaults as the source documents them. */
  lemma DefaultsBehaviour(namespace: string, name: string, schema: AvroModel.SchemaState, table: Catalog.Table)
    ensures var c := Defaults(namespace);
      && !c.representEnumsAsStrings && !c.nullableTrueByDefault && !c.allFieldsDefaultNull
      && !c.useSqlCommentsAsDoc && !c.timesInMicroseconds && !c.timestampsInMicroseconds
      && c.namespace == namespace
      && c.schemaNameMapper(name) == name && c.fieldNameMapper(name) == name
      && c.unknownTypeResolver(name) == Failure("unknown data type: " + name)
      && c.postProcessor(schema, table) == []
      && c.DefaultTimeLogicalType() == TimeMillis
      && c.DefaultTimestampLogicalType() == TimestampMillis
  {
  }

  class AvroConfig {
    var representEnumsAsStrings: bool
    var nullableTrueByDefault: bool
    var allFieldsDefaultNull: bool
    var useSqlCommentsAsDoc: bool
    var timesInMicroseconds: bool
    var timestampsInMicroseconds: bool
    var decimalTypeClass: string
    var dateTypeClass: string
    const namespace: string
    var schemaNameMapper: string -> string
    var fieldNameMapper: string -> string
    var unknownTypeResolver: string -> Result<string, string>
    var avroSchemaPostProcessor: PostProcessor

    function View(): ConfigView
      reads this
    {
      ConfigView(
        representEnumsAsStrings, nullableTrueByDefault, allFieldsDefaultNull,
        useSqlCommentsAsDoc, timesInMicroseconds, timestampsInMicroseconds,
        decimalTypeClass, dateTypeClass, namespace,
        schemaNameMapper, fieldNameMapper, unknownTypeResolver, avroSchemaPostProcessor)
    }

    constructor (namespace: string)
      ensures View() == Defaults(namespace)
    {
      representEnumsAsStrings := false;
      nullableTrueByDefault := false;
      allFieldsDefaultNull := false;
      useSqlCommentsAsDoc := false;
      timesInMicroseconds := false;
      timestampsInMicroseconds := false;
      decimalTypeClass := BigDecimalClass;
      dateTypeClass := LocalDateTimeClass;
      this.namespace := namespace;
      schemaNameMapper := tableName => tableName;
      fieldNameMapper := columnName => columnName;
      unknownTypeResolver := RejectUnknownType;
      avroSchemaPostProcessor := (schema, table) => [];
    }

    method SetSchemaNameMapper(mapper: string -> string) returns (self: AvroConfig)
      modifies this
      ensures self == this
      ensures View() == old(View()).(schemaNameMapper := mapper)
    {
      schemaNameMapper := mapper;
      self := this;
    }

    method SetFieldNameMapper(mapper: string -> string) returns (self: AvroConfig)
      modifies this
      ensures self == this
      ensures View() == old(View()).(fieldNameMapper := mapper)
    {
      fieldNameMapper := mapper;
      self := this;
    }

    method SetRepresentEnumsAsStrings(value: bool) returns (self: AvroConfig)
      modifies this
      ensures self == this
      ensures View() == old(View()).(representEnumsAsStrings := value)
    {
      representEnumsAsStrings := value;
      self := this;
    }

    method SetAllFieldsDefaultNull(value: bool) returns (self: AvroConfig)
      modifies this
      ensures self == this
      ensures View() == old(View()).(allFieldsDefaultNull := value)
    {
      allFieldsDefaultNull := value;
      self := this;
    }

    method SetNullableTrueByDefault(value: bool) returns (self: AvroConfig)
      modifies this
      ensures self == this
      ensures View() == old(View()).(nullableTrueByDefault := value)
    {
      nullableTrueByDefault := value;
      self := this;
    }

    /** Takes the canonical name of the chosen Java class. */
    method SetDateTypeClass(className: string) returns (self: AvroConfig)
      modifies this
      ensures self == this
      ensures View() == old(View()).(dateTypeClass := className)
    {
      dateTypeClass := className;
      self := this;
    }

    /** Takes the canonical name of the chosen Java class. */
    method SetDecimalTypeClass(className: string) returns (self: AvroConfig)
      modifies this
      ensures self == this
      ensures View() == old(View()).(decimalTypeClass := className)
    {
      decimalTypeClass := className;
      self := this;
    }

    method SetUnknownTypeResolver(resolver: string -> Result<string, string>) returns (self: AvroConfig)
      modifies this
      ensures self == this
      ensures View() == old(View()).(unknownTypeResolver := resolver)
    {
      unknownTypeResolver := resolver;
      self := this;
    }

    method SetAvroSchemaPostProcessor(postProcessor: PostProcessor) returns (self: AvroConfig)
      modifies this
      ensures self == this
      ensures View() == old(View()).(postProcessor := postProcessor)
    {
      avroSchemaPostProcessor := postProcessor;
      self := this;
    }

    method SetUseSqlCommentsAsDoc(value: bool) returns (self: AvroConfig)
      modifies this
      ensures self == this
      ensures View() == old(View()).(useSqlCommentsAsDoc := value)
    {
      useSqlCommentsAsDoc := value;
      self := this;
    }

    method SetTimesInMicroseconds(value: bool) returns (self: AvroConfig)
      modifies this
      ensures self == this
      ensures View() == old(View()).(timesInMicroseconds := value)
    {
      timesInMicroseconds := value;
      self := this;
    }

    method SetTimestampsInMicroseconds(value: bool) returns (self: AvroConfig)
      modifies this
      ensures self == this
      ensures View() == old(View()).(timestampsInMicroseconds := value)
    {
      timestampsInMicroseconds := value;
      self := this;
    }
  }

  /** A chain of fluent setters keeps the namespace and changes only the fields it names. */
  method ConfigureForMicroseconds(namespace: string) returns (config: AvroConfig)
    ensures fresh(config)
    ensures config.View() == Defaults(namespace).(timesInMicroseconds := true, timestampsInMicroseconds := true)
    ensures config.View().DefaultTimeLogicalType() == TimeMicros
    ensures config.View().DefaultTimestampLogicalType() == TimestampMicros
  {
    config := new AvroConfig(namespace);
    var same := config.SetTimesInMicroseconds(true);
    same := same.SetTimestampsInMicroseconds(true);
  }
}
