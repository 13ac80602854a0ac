/**
 * AvroTypeUtil: the ordered rule chain that turns a catalog column into an
 * Avro type, and the fixed dictionary of primitive type names behind it.
 */
module TypeMapping {
  import opened Results
  import opened Text
  import opened Catalog
  import opened AvroModel
  import opened Config
  import EnumParsing
  import LogicalTypes

  /** The `switch` of `getPrimitiveType`: lower-case SQL type name to Avro primitive type, if listed. */
  function Dictionary(name: string): (r: Option<string>)
    ensures r.Some? ==> r.value in ["int", "bytes", "long", "boolean", "string", "double", "float"]
  {
    match name
    case "integer" | "int" | "int identity" | "int unsigned" | "int2" | "int4" | "mediumint"
      | "mediumint unsigned" | "smallint" | "smallint unsigned" | "serial" | "smallserial" | "tinyint"
      | "tinyint unsigned" => Some("int")
    case "tinyblob" | "blob" | "binary" | "varbinary" | "longvarbinary" => Some("bytes")
    case "int8" | "bigserial" | "bigint" | "bigint unsigned" => Some("long")
    case "bit" | "bool" | "boolean" => Some("boolean")
    case "char" | "bpchar" | "varchar" | "varchar2" | "text" | "longtext" | "longvarchar"
      | "longnvarchar" | "nvarchar" | "nvarchar2" | "nclob" | "macaddr" | "inet" | "cidr" | "uuid" | "xml"
      | "json" | "nchar" => Some("string")
    case "double precision" | "float" | "float8" | "double" => Some("double")
    case "float4" | "real" => Some("float")
    case _ => None
  }

  /**
   * `getPrimitiveType`: the dictionary entry of the lower-cased name, or else
   * whatever the configured resolver answers for the name as given. What the
   * dictionary holds is stated by DictionaryFamilies and
   * UnknownTypeGoesToResolver.
   */
  function PrimitiveType(typeName: string, config: ConfigView): (r: Result<string, MappingError>)
    ensures Dictionary(Lower(typeName)).Some? ==> r == Success(Dictionary(Lower(typeName)).value)
    ensures Dictionary(Lower(typeName)).None? ==>
      match config.unknownTypeResolver(typeName)
      case Success(t) => r == Success(t)
      case Failure(m) => r == Failure(ResolverFailed(m))
  {
    match Dictionary(Lower(typeName))
    case Some(t) => Success(t)
    case None =>
      match config.unknownTypeResolver(typeName)
      case Success(t) => Success(t)
      case Failure(m) => Failure(ResolverFailed(m))
  }

  /** The Oracle `number` rule: the width class follows the size, and decimal digits pick a floating type. */
  function NumberType(size: int, decimalDigits: int): (r: string)
    ensures r == "bytes" <==> size > 18
    ensures r == "int" || r == "float" <==> size <= 9
    ensures r == "float" || r == "double" <==> decimalDigits > 0 && size <= 18
    ensures r == "int" || r == "long" <==> decimalDigits <= 0 && size <= 18
  {
    if decimalDigits > 0 then
      if size <= 9 then "float" else if size <= 18 then "double" else "bytes"
    else
      if size <= 9 then "int" else if size <= 18 then "long" else "bytes"
  }

  /** The concrete type chosen for a column, given its already lower-cased type name. */
  function BaseType(column: Column, typeName: string, config: ConfigView): (r: Result<Type, MappingError>)
    ensures r.Success? && r.value.Enum? ==> EqualsIgnoreCase(typeName, "enum") && !config.representEnumsAsStrings
    ensures r.Success? && r.value.Array? ==> column.mapsToSqlArray && !EqualsIgnoreCase(typeName, "enum")
    ensures r.Failure? && r.error == EmptyArrayTypeName ==> column.mapsToSqlArray && typeName == []
  {
    if EqualsIgnoreCase(typeName, "enum") then
      if config.representEnumsAsStrings then Success(Primitive("string"))
      else EnumParsing.EnumOf(column)
    else if column.isUserDefined then Success(Primitive("string"))
    else if typeName in ["decimal", "numeric"] then
      Success(Decimal(DecimalType(column.size, column.decimalDigits, config.decimalTypeClass)))
    else if EqualsIgnoreCase(typeName, "date") then Success(Date(DateType))
    else if typeName in ["timestamp", "datetime", "time"] then
      Success(Timestamp(LogicalTypes.NewTimestamp(column, config)))
    else if column.mapsToSqlArray then
      if typeName == [] then Failure(EmptyArrayTypeName)
      else
        match PrimitiveType(typeName[1..], config)
        case Success(t) => Success(Array(Primitive(t)))
        case Failure(e) => Failure(e)
    else if EqualsIgnoreCase(typeName, "number") then
      Success(Primitive(NumberType(column.size, column.decimalDigits)))
    else
      match PrimitiveType(typeName, config)
      case Success(t) => Success(Primitive(t))
      case Failure(e) => Failure(e)
  }

  /**
   * `getAvroType`: the rule chain runs on the lower-cased type name, and the
   * nullable flag is decided before any rule, the same for every branch.
   * What each rule gives is stated by the lemmas after it (EnumRule,
   * UserDefinedIsString, FixedRules, ArrayRule, NumberRule).
   */
  function GetAvroType(column: Column, config: ConfigView): (r: Result<AvroType, MappingError>)
    ensures r.Success? <==> BaseType(column, Lower(column.typeName), config).Success?
    ensures r.Success? ==> r.value.base == BaseType(column, Lower(column.typeName), config).value
    ensures r.Success? ==> (r.value.nullable <==> column.isNullable || config.nullableTrueByDefault)
    ensures r.Failure? ==> r.error == BaseType(column, Lower(column.typeName), config).error
  {
    var nullable := column.isNullable || config.nullableTrueByDefault;
    match BaseType(column, Lower(column.typeName), config)
    case Success(t) => Success(AvroType(t, nullable))
    case Failure(e) => Failure(e)
  }

  /** The names the rule chain compares against are already lower-case. */
  lemma RuleNamesAreLowerCase()
    ensures Lower("enum") == "enum" && Lower("date") == "date" && Lower("number") == "number"
  {
  }

  /** Upper- and lower-case spellings of a type name map to the same Avro type. */
  lemma GetAvroTypeIgnoresCase(column: Column, typeName: string, config: ConfigView)
    requires EqualsIgnoreCase(column.typeName, typeName)
    ensures GetAvroType(column, config) == GetAvroType(column.(typeName := typeName), config)
  {
  }

  /**
   * An `enum` column is a string when enums are represented as strings and
   * otherwise the parsed enum; the rule comes before the user-defined one,
   * so a user-defined enum is still an enum.
   */
  lemma EnumRule(column: Column, config: ConfigView)
    requires Lower(column.typeName) == "enum"
    ensures config.representEnumsAsStrings ==>
      GetAvroType(column, config).Success? && GetAvroType(column, config).value.base == Primitive("string")
    ensures !config.representEnumsAsStrings ==>
      match EnumParsing.EnumOf(column)
      case Success(e) => GetAvroType(column, config).Success? && GetAvroType(column, config).value.base == e
      case Failure(err) => GetAvroType(column, config) == Failure(err)
  {
    LowerIdempotent(column.typeName);
    RuleNamesAreLowerCase();
  }

  /** Apart from enums, a user-defined type is always a string. */
  lemma UserDefinedIsString(column: Column, config: ConfigView)
    requires column.isUserDefined && Lower(column.typeName) != "enum"
    ensures GetAvroType(column, config).Success?
    ensures GetAvroType(column, config).value.base == Primitive("string")
  {
    LowerIdempotent(column.typeName);
    RuleNamesAreLowerCase();
  }

  /**
   * `decimal`/`numeric` give a Decimal, `date` a Date, and `timestamp`,
   * `datetime` and also `time` a Timestamp, for a column that is not user-defined.
   */
  lemma FixedRules(column: Column, config: ConfigView)
    requires !column.isUserDefined
    ensures var t := Lower(column.typeName);
      && (t in ["decimal", "numeric"] ==>
            && GetAvroType(column, config).Success?
            && GetAvroType(column, config).value.base ==
                 Decimal(DecimalType(column.size, column.decimalDigits, config.decimalTypeClass)))
      && (t == "date" ==>
            && GetAvroType(column, config).Success?
            && GetAvroType(column, config).value.base == Date(DateType))
      && (t in ["timestamp", "datetime", "time"] ==>
            && GetAvroType(column, config).Success?
            && GetAvroType(column, config).value.base == Timestamp(LogicalTypes.NewTimestamp(column, config)))
  {
    LowerIdempotent(column.typeName);
    RuleNamesAreLowerCase();
  }

  /** The rule chain never yields the Time type: a `time` column becomes a Timestamp. */
  lemma NeverTime(column: Column, config: ConfigView)
    ensures GetAvroType(column, config).Success? ==> !GetAvroType(column, config).value.base.Time?
  {
  }

  /** An array column maps its type name minus the first character through the dictionary. */
  lemma ArrayRule(column: Column, config: ConfigView)
    requires column.mapsToSqlArray && !column.isUserDefined
    requires Lower(column.typeName) !in ["enum", "decimal", "numeric", "date", "timestamp", "datetime", "time"]
    ensures |column.typeName| == 0 ==> GetAvroType(column, config) == Failure(EmptyArrayTypeName)
    ensures |column.typeName| > 0 ==>
      match PrimitiveType(Lower(column.typeName)[1..], config)
      case Success(p) => GetAvroType(column, config).Success? && GetAvroType(column, config).value.base == Array(Primitive(p))
      case Failure(e) => GetAvroType(column, config) == Failure(e)
  {
    LowerIdempotent(column.typeName);
    RuleNamesAreLowerCase();
  }

  /** A `number` column that is neither user-defined nor an array follows the size/digits table. */
  lemma NumberRule(column: Column, config: ConfigView)
    requires !column.isUserDefined && !column.mapsToSqlArray && Lower(column.typeName) == "number"
    ensures GetAvroType(column, config).Success?
    ensures GetAvroType(column, config).value.base == Primitive(NumberType(column.size, column.decimalDigits))
  {
    LowerIdempotent(column.typeName);
    RuleNamesAreLowerCase();
  }

  /** The dictionary, family by family, whatever the case of the name. */
  lemma DictionaryFamilies(name: string, config: ConfigView)
    ensures Lower(name) in IntFamily ==> PrimitiveType(name, config) == Success("int")
    ensures Lower(name) in BytesFamily ==> PrimitiveType(name, config) == Success("bytes")
    ensures Lower(name) in LongFamily ==> PrimitiveType(name, config) == Success("long")
    ensures Lower(name) in BooleanFamily ==> PrimitiveType(name, config) == Success("boolean")
    ensures Lower(name) in StringFamily ==> PrimitiveType(name, config) == Success("string")
    ensures Lower(name) in DoubleFamily ==> PrimitiveType(name, config) == Success("double")
    ensures Lower(name) in FloatFamily ==> PrimitiveType(name, config) == Success("float")
  {
  }

  const IntFamily := ["integer", "int", "int identity", "int unsigned", "int2", "int4", "mediumint",
    "mediumint unsigned", "smallint", "smallint unsigned", "serial", "smallserial", "tinyint", "tinyint unsigned"]
  const BytesFamily := ["tinyblob", "blob", "binary", "varbinary", "longvarbinary"]
  const LongFamily := ["int8", "bigserial", "bigint", "bigint unsigned"]
  const BooleanFamily := ["bit", "bool", "boolean"]
  const StringFamily := ["char", "bpchar", "varchar", "varchar2", "text", "longtext", "longvarchar",
    "longnvarchar", "nvarchar", "nvarchar2", "nclob", "macaddr", "inet", "cidr", "uuid", "xml", "json", "nchar"]
  const DoubleFamily := ["double precision", "float", "float8", "double"]
  const FloatFamily := ["float4", "real"]

  /**
   * A plain column whose type is in no rule and not in the dictionary goes
   * to the resolver with its lower-cased name; the resolver's failure is the
   * mapping's failure.
   */
  lemma UnknownTypeGoesToResolver(column: Column, config: ConfigView)
    requires !column.isUserDefined && !column.mapsToSqlArray
    requires Lower(column.typeName) !in ["enum", "decimal", "numeric", "date", "timestamp", "datetime", "time", "number"]
    requires Dictionary(Lower(column.typeName)).None?
    ensures match config.unknownTypeResolver(Lower(column.typeName))
      case Success(t) => GetAvroType(column, config).Success? && GetAvroType(column, config).value.base == Primitive(t)
      case Failure(m) => GetAvroType(column, config) == Failure(ResolverFailed(m))
  {
    LowerIdempotent(column.typeName);
    RuleNamesAreLowerCase();
  }

  /** With the default resolver an unknown type is an error naming the lower-cased type. */
  lemma DefaultResolverRejects(column: Column)
    requires !column.isUserDefined && !column.mapsToSqlArray
    requires Lower(column.typeName) !in ["enum", "decimal", "numeric", "date", "timestamp", "datetime", "time", "number"]
    requires Dictionary(Lower(column.typeName)).None?
    ensures GetAvroType(column, Defaults("")) == Failure(ResolverFailed("unknown data type: " + Lower(column.typeName)))
  {
    UnknownTypeGoesToResolver(column, Defaults(""));
  }
}
