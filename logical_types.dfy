/**
 * The Time and Timestamp types: immutable values whose primitive type,
 * logical type and Java class are fixed from the configuration when they
 * are built.
 */
module LogicalTypes {
  import opened AvroModel
  import opened Config
  import Catalog

  const SqlTimeClass := "java.sql.Time"

  /** `new Timestamp(column, config)`: the column is not consulted. */
  function NewTimestamp(column: Catalog.Column, config: ConfigView): (t: TemporalType)
    ensures t.logicalType == TimestampMillis || t.logicalType == TimestampMicros
  {
    TemporalType("long", config.DefaultTimestampLogicalType(), config.dateTypeClass)
  }

  /** `new Time(column, config)`: the column is not consulted. */
  function NewTime(column: Catalog.Column, config: ConfigView): (t: TemporalType)
    ensures t.logicalType == TimeMillis || t.logicalType == TimeMicros
  {
    TemporalType(if config.timesInMicroseconds then "long" else "int", config.DefaultTimeLogicalType(), SqlTimeClass)
  }

  /** A timestamp is a `long` whose precision follows the microseconds flag and whose class is the configured date class. */
  lemma TimestampFromConfig(column: Catalog.Column, config: ConfigView)
    ensures var t := NewTimestamp(column, config);
      && t.primitiveType == "long"
      && (t.logicalType == TimestampMicros <==> config.timestampsInMicroseconds)
      && (t.logicalType == TimestampMillis <==> !config.timestampsInMicroseconds)
      && t.javaClass == config.dateTypeClass
  {
  }

  /** A timestamp depends on the configuration only. */
  lemma TimestampIgnoresColumn(c1: Catalog.Column, c2: Catalog.Column, config: ConfigView)
    ensures NewTimestamp(c1, config) == NewTimestamp(c2, config)
  {
  }

  /**
   * A time is `int`/`time-millis` or `long`/`time-micros`, never a mixed
   * pair, and always maps to `java.sql.Time`.
   */
  lemma TimeFromConfig(column: Catalog.Column, config: ConfigView)
    ensures var t := NewTime(column, config);
      && (t.primitiveType == "long" <==> config.timesInMicroseconds)
      && (t.logicalType == TimeMicros <==> config.timesInMicroseconds)
      && ((t.primitiveType == "int" && t.logicalType == TimeMillis)
          || (t.primitiveType == "long" && t.logicalType == TimeMicros))
      && t.javaClass == SqlTimeClass
  {
  }

  /** `toString` of a Time or Timestamp: the base type's text (Type.java is not part of this model), then the logical type. */
  function TemporalToString(typeText: string, t: TemporalType): (r: string)
    ensures |r| == |typeText| + 2 + |t.logicalType|
    ensures r[..|typeText|] == typeText && r[|r| - |t.logicalType|..] == t.logicalType
    ensures r[|typeText|..|typeText| + 2] == ": "
  {
    typeText + ": " + t.logicalType
  }
}
