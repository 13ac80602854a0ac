# avro-schema-generator, modelled in Dafny

This project models the core of avro-schema-generator. The generator reads
database tables and writes Apache Avro record schemas for them. The model
covers these parts:

- **Type mapping.** `AvroTypeUtil` maps a column to an Avro type. It uses an
  ordered, first-match-wins rule chain over the lower-cased SQL type name:
  enum, user-defined, decimal/numeric, date, timestamp/datetime/time, SQL
  array, Oracle `number`. After that comes a fixed dictionary of primitive
  names. Any other name goes to a configurable resolver for unknown types.
  The nullable flag is computed apart from the rule that fires.
- **Enum parsing.** `Enum` turns a column's `COLUMN_TYPE` attribute, such as
  `enum('a','b')`, into a symbol array. It first removes the keyword, then
  the parentheses, then splits on commas. A loop then trims each symbol and
  removes its quotes in place.
- **Schema assembly.** `AvroSchema` holds the following:
  - the mapped name, the namespace and an optional doc;
  - one field per column, followed by any extra fields;
  - the primary-key fields, as a subsequence of the column fields;
  - an insertion-ordered map of custom properties.

  A post-processor callback runs once, after assembly.
- **JSON formatting.**
  - The date, time and timestamp formatters share one template; the decimal
    formatter has a four-slot template. Each replaces the template's colons
    with the configured colon and then fills the `%s` holes.
  - The record formatter writes the header lines, the custom properties and
    the field list.
  - The key formatter writes the `_KEY` record with the key fields only.
- **Configuration.** `AvroConfig` is a mutable object. It has fluent setters
  and the millis/micros selectors that the `Time` and `Timestamp` types use.
- **Extractor helpers.** `DbSchemaExtractor` contributes these string
  helpers:
  - the database name inside a JDBC URL;
  - the schema inclusion regex;
  - the table-name prefix;
  - the schema-name filter;
  - `getForTable`'s choice of result;
  - `containsIgnoreCase`.

How the Java code is represented:

- Java exceptions become `Failure` results, and `null` becomes `None`.
- The user's callbacks become function-typed fields of the configuration:
  the name mappers, the unknown-type resolver and the post-processor.
- The post-processor returns a list of edits, which the schema applies one
  by one.
- The SchemaCrawler column and table become plain datatypes (module
  `Catalog`).
- `java.lang.String` operations are modelled by module `Text`, for the
  literal patterns the code passes: `indexOf`, `replaceFirst`, `replace` of
  one character, `split` (which drops trailing empty parts), `trim` and
  ASCII lower-casing.

Modules, in dependency order:

| file | module |
|---|---|
| `results.dfy` | `Results` |
| `text.dfy` | `Text` |
| `catalog.dfy` | `Catalog` |
| `avro_model.dfy` | `AvroModel` |
| `config.dfy` | `Config` |
| `logical_types.dfy` | `LogicalTypes` |
| `enum_parsing.dfy` | `EnumParsing` |
| `typemapping.dfy` | `TypeMapping` |
| `schema.dfy` | `Schema` |
| `formatters.dfy` | `Formatters` |
| `extractor.dfy` | `Extractor` |

Some state changes in place in the source, and the model keeps it that way:

- `AvroConfig` is a class with setters that return `this`.
- `AvroSchema` is a class whose `AddCustomProperty`, `Apply` and `ApplyAll`
  change its fields.
- Enum normalisation rewrites an `array` in place.
- `toJson`, `formatFields`, the table prefix and `containsIgnoreCase` are
  built by appends and loops.

Each of these is proved against a specification function. The lemmas state
their properties over that function.

The model keeps three behaviours of the code that may look unintended:

- An enum whose attribute has no symbols still yields an enum. No error is
  raised for an empty symbol list.
- A symbol's spaces inside its quotes survive normalisation, because `trim`
  runs before the quotes are removed (`EnumParsing.QuotedSpaceSurvives`).
- `formatFields` always cuts two characters. With a two-character line
  separator (`\r\n`), a trailing comma is left after the last field
  (`Formatters.FormatFieldsTwoCharSeparator`).

## Model

| member | source | states |
|---|---|---|
| TypeMapping.GetAvroType | src/main/java/com/at/avro/AvroTypeUtil.java:19-64 | succeeds exactly when the rule chain over the lower-cased type name succeeds; the type is that rule's type; the nullable flag is `isNullable || nullableTrueByDefault` on every branch; a failure is passed through unchanged |
| TypeMapping.GetAvroTypeIgnoresCase | src/main/java/com/at/avro/AvroTypeUtil.java:22 | two type names that are equal ignoring case give the same result |
| TypeMapping.BaseType | src/main/java/com/at/avro/AvroTypeUtil.java:25-63 | the rule chain on the lower-cased name: an enum type comes only from the `enum` rule with enums not represented as strings; an array type only from an array column whose name is not `enum`; the empty-name failure only from an array column with an empty name |
| TypeMapping.EnumRule | src/main/java/com/at/avro/AvroTypeUtil.java:25-30 | `enum` gives `string` when enums are represented as strings, otherwise the parsed enum or its failure; this holds even for user-defined columns |
| TypeMapping.UserDefinedIsString | src/main/java/com/at/avro/AvroTypeUtil.java:31-32 | a user-defined column that is not an enum maps to `string` |
| TypeMapping.FixedRules | src/main/java/com/at/avro/AvroTypeUtil.java:33-38 | decimal/numeric give Decimal(size, digits, class); date gives Date; timestamp/datetime/time give the configured Timestamp |
| TypeMapping.NeverTime | src/main/java/com/at/avro/AvroTypeUtil.java:37-38 | no column ever maps to the Time type |
| TypeMapping.ArrayRule | src/main/java/com/at/avro/AvroTypeUtil.java:39-40 | an array column gives an Array of the primitive mapping of the type name minus its first character; an empty type name fails |
| TypeMapping.NumberType | src/main/java/com/at/avro/AvroTypeUtil.java:44-60 | `bytes` iff size > 18; `int` or `float` iff size <= 9; `float`/`double` iff digits > 0 and size <= 18; `int`/`long` iff digits <= 0 and size <= 18 |
| TypeMapping.NumberRule | src/main/java/com/at/avro/AvroTypeUtil.java:42-60 | a non-array, non-user-defined `number` column maps to the primitive NumberType gives |
| TypeMapping.PrimitiveType | src/main/java/com/at/avro/AvroTypeUtil.java:66-129 | a dictionary name gives its family's primitive; any other name gives the resolver's answer, and a resolver failure gives ResolverFailed with its message |
| TypeMapping.Dictionary | src/main/java/com/at/avro/AvroTypeUtil.java:68-124 | every entry is one of the seven Avro primitives int, bytes, long, boolean, string, double, float |
| TypeMapping.DictionaryFamilies | src/main/java/com/at/avro/AvroTypeUtil.java:66-124 | every listed name of each family (int, bytes, long, boolean, string, double including `float`, float) maps to that family's primitive |
| TypeMapping.UnknownTypeGoesToResolver | src/main/java/com/at/avro/AvroTypeUtil.java:126-127 | a name that no rule and no dictionary entry matches is passed lower-cased to the resolver, and its result or failure is returned |
| TypeMapping.DefaultResolverRejects | src/main/java/com/at/avro/config/AvroConfig.java:39 | with the default configuration an unknown name fails with `unknown data type: ` and the name |
| EnumParsing.NewEnum | src/main/java/com/callfire/avro/types/Enum.java:13-28 | the constructor, step by step, equals EnumOf; the enum's name is the column's name |
| EnumParsing.EnumSymbols | src/main/java/com/callfire/avro/types/Enum.java:17-27 | one symbol per piece of the split, none longer than its piece |
| EnumParsing.EnumOf | src/main/java/com/callfire/avro/types/Enum.java:13-28 | an enum exactly when the column has a `COLUMN_TYPE`, named after the column; otherwise the missing-attribute failure |
| EnumParsing.NormaliseSymbols | src/main/java/com/callfire/avro/types/Enum.java:25-27 | the loop replaces each element by its trimmed, unquoted form at the same index and keeps the length |
| EnumParsing.SymbolsHaveNoQuotesOrParentheses | src/main/java/com/callfire/avro/types/Enum.java:19-27 | no symbol contains `'`, `(` or `)` |
| EnumParsing.SymbolCountBound | src/main/java/com/callfire/avro/types/Enum.java:23 | there are at most one more symbols than commas in the stripped attribute |
| EnumParsing.NormaliseQuoted | src/main/java/com/callfire/avro/types/Enum.java:26 | a quoted symbol with whitespace padding outside the quotes normalises to the bare symbol |
| EnumParsing.SymbolsOfStrippedList | src/main/java/com/callfire/avro/types/Enum.java:23-27 | splitting and normalising a comma-joined list of padded quoted symbols gives back the symbols, in order |
| EnumParsing.StripKeyword | src/main/java/com/callfire/avro/types/Enum.java:19-20 | removing the first `enum` and then the first `ENUM` from a keyword-prefixed list leaves the list; the list may repeat the keyword in front, as long as it does not hold the other keyword |
| EnumParsing.StripParentheses | src/main/java/com/callfire/avro/types/Enum.java:21-22 | removing all `)` and then all `(` from a parenthesised text without parentheses leaves the text |
| EnumParsing.EnumRoundTrip | src/main/java/com/callfire/avro/types/Enum.java:17-27 | for `enum(...)` or `ENUM(...)` around quoted symbols with any padding around the commas, the parsed symbols are exactly the original symbols, even when a symbol repeats the keyword, provided no symbol holds the other keyword |
| EnumParsing.QuotedSpaceSurvives | src/main/java/com/callfire/avro/types/Enum.java:26 | `enum(' a')` parses to `[" a"]`: a space inside the quotes survives |
| EnumParsing.LaterKeywordSurvives | src/main/java/com/callfire/avro/types/Enum.java:19 | `enum('enumx')` parses to `["enumx"]`: only the first `enum` is removed, so a later one survives inside a symbol |
| EnumParsing.KeywordInsideSymbolIsRemoved | src/main/java/com/callfire/avro/types/Enum.java:19-20 | `enum('ENUM_A','b')` parses to `["_A","b"]`, because the first `ENUM` is removed even inside a symbol |
| EnumParsing.StrippedOfParenthesised | src/main/java/com/callfire/avro/types/Enum.java:19-22 | once the keywords are removed, a parenthesised list without parentheses is stripped to its inside |
| LogicalTypes.TimestampFromConfig | src/main/java/com/at/avro/types/Timestamp.java:11-15 | primitive `long`; `timestamp-micros` iff timestamps are in microseconds, else `timestamp-millis`; class is the configured date class |
| LogicalTypes.TimestampIgnoresColumn | src/main/java/com/at/avro/types/Timestamp.java:11-15 | the timestamp depends on the configuration only |
| LogicalTypes.NewTimestamp | src/main/java/com/at/avro/types/Timestamp.java:11-15 | the logical type is `timestamp-millis` or `timestamp-micros` |
| LogicalTypes.TimeFromConfig | src/main/java/com/at/avro/types/Time.java:11-15 | `long` and `time-micros` iff times are in microseconds, otherwise `int` and `time-millis`, never mixed; class `java.sql.Time` |
| LogicalTypes.NewTime | src/main/java/com/at/avro/types/Time.java:11-15 | the logical type is `time-millis` or `time-micros` |
| LogicalTypes.TemporalToString | src/main/java/com/at/avro/types/Time.java:25-28 | the text is the base type's text, then `: `, then the logical type |
| Config.ConfigView.DefaultTimeLogicalType | src/main/java/com/at/avro/config/AvroConfig.java:192-194 | `time-micros` iff times are in microseconds, else `time-millis` |
| Config.ConfigView.DefaultTimestampLogicalType | src/main/java/com/at/avro/config/AvroConfig.java:208-210 | `timestamp-micros` iff timestamps are in microseconds, else `timestamp-millis` |
| Config.DefaultsBehaviour | src/main/java/com/at/avro/config/AvroConfig.java:25-44 | all six flags are false; the namespace is the given one; the mappers are the identity; the resolver fails with `unknown data type: `; the post-processor does nothing; millis is chosen for both logical types |
| Config.AvroConfig.constructor | src/main/java/com/at/avro/config/AvroConfig.java:42-44 | a new configuration holds the defaults for its namespace |
| Config.AvroConfig.SetSchemaNameMapper | src/main/java/com/at/avro/config/AvroConfig.java:50-53 | changes only the schema name mapper and returns the same object |
| Config.AvroConfig.SetFieldNameMapper | src/main/java/com/at/avro/config/AvroConfig.java:63-66 | changes only the field name mapper and returns the same object |
| Config.AvroConfig.SetRepresentEnumsAsStrings | src/main/java/com/at/avro/config/AvroConfig.java:75-78 | changes only that flag and returns the same object |
| Config.AvroConfig.SetAllFieldsDefaultNull | src/main/java/com/at/avro/config/AvroConfig.java:87-90 | changes only that flag and returns the same object |
| Config.AvroConfig.SetNullableTrueByDefault | src/main/java/com/at/avro/config/AvroConfig.java:103-106 | changes only that flag and returns the same object |
| Config.AvroConfig.SetDateTypeClass | src/main/java/com/at/avro/config/AvroConfig.java:116-119 | changes only the date class and returns the same object |
| Config.AvroConfig.SetDecimalTypeClass | src/main/java/com/at/avro/config/AvroConfig.java:129-132 | changes only the decimal class and returns the same object |
| Config.AvroConfig.SetUnknownTypeResolver | src/main/java/com/at/avro/config/AvroConfig.java:146-149 | changes only the resolver and returns the same object |
| Config.AvroConfig.SetAvroSchemaPostProcessor | src/main/java/com/at/avro/config/AvroConfig.java:159-162 | changes only the post-processor and returns the same object |
| Config.AvroConfig.SetUseSqlCommentsAsDoc | src/main/java/com/at/avro/config/AvroConfig.java:171-174 | changes only that flag and returns the same object |
| Config.AvroConfig.SetTimesInMicroseconds | src/main/java/com/at/avro/config/AvroConfig.java:183-186 | changes only that flag and returns the same object |
| Config.AvroConfig.SetTimestampsInMicroseconds | src/main/java/com/at/avro/config/AvroConfig.java:199-202 | changes only that flag and returns the same object |
| Config.ConfigureForMicroseconds | src/main/java/com/at/avro/config/AvroConfig.java:183-210 | chaining both micro setters on a new configuration changes only those two flags and selects `time-micros` and `timestamp-micros` |
| Schema.NewField | src/main/java/com/at/avro/AvroSchema.java:36 | a field is built exactly when its column's type maps; its name is the mapped column name and its type is the column's Avro type; otherwise the mapping error |
| Schema.MappedFields | src/main/java/com/at/avro/AvroSchema.java:35-37 | one field per column |
| Schema.FirstFailureAt | src/main/java/com/at/avro/AvroSchema.java:35-36 | the constructor fails with the error of the first column whose type does not map |
| Schema.KeyIndices | src/main/java/com/at/avro/AvroSchema.java:38-40 | the primary-key column positions: all of them, and only they, in increasing order |
| Schema.KeyFieldsSnoc | src/main/java/com/at/avro/AvroSchema.java:38-40 | a further column adds its field to the keys exactly when it is part of the primary key |
| Schema.KeyFieldsAreSubsequence | src/main/java/com/at/avro/AvroSchema.java:35-41 | the keys are the fields at the primary-key positions, in column order |
| Schema.KeyCountBound | src/main/java/com/at/avro/AvroSchema.java:38-40 | there are no more keys than columns |
| Schema.KeyIndex | src/main/java/com/at/avro/AvroSchema.java:26 | the position of a key in the ordered property map, or -1 exactly when it is absent |
| Schema.PutOrder | src/main/java/com/at/avro/AvroSchema.java:74-76 | keys stay unique; a new key is appended at the end; an existing key keeps its place and only its value changes |
| Schema.PutLookup | src/main/java/com/at/avro/AvroSchema.java:74-76 | after a put, the key reads back the new value and every other key reads back its old value |
| Schema.AssembledShape | src/main/java/com/at/avro/AvroSchema.java:28-45 | mapped name, configured namespace, remarks as doc only when enabled; one field per column in order, then the extra fields; keys are the fields at the primary-key positions; no properties |
| Schema.ExtraFieldsAreNotKeys | src/main/java/com/at/avro/AvroSchema.java:43-45 | the extra fields do not change the keys |
| Schema.ApplyEditsSnoc | src/main/java/com/at/avro/AvroSchema.java:47 | applying one more edit extends the result by that edit |
| Schema.ApplyEditsKeeps | src/main/java/com/at/avro/AvroSchema.java:47 | post-processing keeps the name, namespace and doc, keeps the assembled fields and keys as prefixes, and keeps property keys unique |
| Schema.DefaultPostProcessorKeepsSchema | src/main/java/com/at/avro/AvroSchema.java:47 | with the default post-processor the built schema is the assembled one |
| Schema.ToStringDocEntry | src/main/java/com/at/avro/AvroSchema.java:83-95 | a `doc=` entry appears iff the doc is set, in third place, with five entries against four |
| Schema.AvroSchema.constructor | src/main/java/com/at/avro/AvroSchema.java:29-33 | a new schema has the given name, namespace and doc, and no fields, keys or properties |
| Schema.AvroSchema.IsDocSet | src/main/java/com/at/avro/AvroSchema.java:62-64 | true iff the doc is present and holds a character that is not whitespace in the sense of `Character.isWhitespace`, including the Unicode space separators |
| Schema.AvroSchema.AddCustomProperty | src/main/java/com/at/avro/AvroSchema.java:74-76 | the properties become the ordered put of the pair; the fields and keys are unchanged |
| Schema.AvroSchema.Apply | src/main/java/com/at/avro/AvroSchema.java:47 | the new state is the old state with the edit applied |
| Schema.AvroSchema.ApplyAll | src/main/java/com/at/avro/AvroSchema.java:47 | the new state is the old state with all the edits applied in order |
| Schema.AvroSchema.ToString | src/main/java/com/at/avro/AvroSchema.java:83-95 | the text starts with `AvroSchema[na` and ends with `]` |
| Schema.AddColumnFields | src/main/java/com/at/avro/AvroSchema.java:35-41 | the column loop stops with the first failing column's error exactly when some column does not map; otherwise the fields are one per column in order and the keys are the fields of the primary-key columns; the properties are untouched |
| Schema.NewAvroSchema | src/main/java/com/at/avro/AvroSchema.java:28-48 | succeeds iff every column maps, with a fresh schema in the built state (assembled, then post-processed once); otherwise fails with the first column's error |
| Formatters.SlotColon | src/main/java/com/at/avro/formatters/DecimalFormatter.java:20-21 | replacing the colons turns a slot's template colon into the configured colon and leaves the keys as they are |
| Formatters.FillTemplate | src/main/java/com/at/avro/formatters/DecimalFormatter.java:20-27 | colon replacement and then formatting put the configured colon after each key and each value verbatim into its hole |
| Formatters.LogicalTemplateFilled | src/main/java/com/at/avro/formatters/DateFormatter.java:17-18 | the shared template gives `{ "type"`, colon, the quoted primitive, `, "logicalType"`, colon, the quoted logical type, `}` |
| Formatters.DateJson | src/main/java/com/at/avro/formatters/DateFormatter.java:17-18 | a date writes `int` and `date` in that shape, with no `java-class` key |
| Formatters.TemporalJson | src/main/java/com/at/avro/formatters/TimeFormatter.java:9-10 | the time and the timestamp formatter write their primitive and logical types verbatim, quoted, type first |
| Formatters.LogicalFormattersAgree | src/main/java/com/at/avro/formatters/TimestampFormatter.java:9-10 | equal primitive and logical types give the same text from the time and timestamp formatters, and the date's text for `int`/`date` |
| Formatters.DateToJson | src/main/java/com/at/avro/formatters/DateFormatter.java:17-18 | the date formatter; its text is stated by DateJson |
| Formatters.TimeToJson | src/main/java/com/at/avro/formatters/TimeFormatter.java:9-10 | the time formatter; its text is stated by TemporalJson and LogicalFormattersAgree |
| Formatters.TimestampToJson | src/main/java/com/at/avro/formatters/TimestampFormatter.java:9-10 | the timestamp formatter; its text is stated by TemporalJson and LogicalFormattersAgree |
| Formatters.DecimalToJson | src/main/java/com/at/avro/formatters/DecimalFormatter.java:20-27 | the decimal formatter; its text is stated by DecimalJson |
| Formatters.DecimalTemplatePieces | src/main/java/com/at/avro/formatters/DecimalFormatter.java:20 | the decimal template is four plain slots: two quoted holes, then two unquoted ones |
| Formatters.DecimalJson | src/main/java/com/at/avro/formatters/DecimalFormatter.java:20-27 | `bytes` and `decimal` quoted, then precision and scale unquoted, keys in that order, `{ ` first and ` }` last, no `java-class` key |
| Formatters.FormatLineLowerCasesOnlyName | src/main/java/com/at/avro/formatters/SchemaFormatter.java:42-45 | lower-casing changes the line's name only; the value is never lower-cased |
| Formatters.FormatLine | src/main/java/com/at/avro/formatters/SchemaFormatter.java:42-45 | one header line; what it lower-cases is stated by FormatLineLowerCasesOnlyName |
| Formatters.RecordName | src/main/java/com/at/avro/formatters/SchemaKeyFormatter.java:13-15 | the key record name is the schema name followed by `_KEY`, not lower-cased |
| Formatters.HeaderOrder | src/main/java/com/at/avro/formatters/SchemaFormatter.java:20-31 | the header is type=record, name, namespace, the doc only when set, then the custom properties in insertion order, with values unchanged |
| Formatters.LinesAppend | src/main/java/com/at/avro/formatters/SchemaFormatter.java:21-31 | the header text of two entry lists is the concatenation of their texts |
| Formatters.FieldsBlockJoin | src/main/java/com/at/avro/formatters/SchemaFormatter.java:49-53 | before truncation, every field appears once, in order, after two indents and before a comma and the line separator |
| Formatters.FormatFieldsEmpty | src/main/java/com/at/avro/formatters/SchemaFormatter.java:47-57 | no fields give the empty text |
| Formatters.FormatFieldsOneCharSeparator | src/main/java/com/at/avro/formatters/SchemaFormatter.java:54-56 | with a one-character separator the result is the field texts joined by a comma and the separator |
| Formatters.FormatFieldsTwoCharSeparator | src/main/java/com/at/avro/formatters/SchemaFormatter.java:54-56 | with a two-character separator a trailing comma remains after the last field |
| Formatters.FormatFieldsEmptySeparator | src/main/java/com/at/avro/formatters/SchemaFormatter.java:54-56 | with an empty separator the truncation also cuts the last character of the last field |
| Formatters.FormatFields | src/main/java/com/at/avro/formatters/SchemaFormatter.java:47-58 | the loop of appends and the truncation produce exactly the formatted field list |
| Formatters.SchemaJson | src/main/java/com/at/avro/formatters/SchemaFormatter.java:19-39 | the schema text starts with `{` and ends with `}` |
| Formatters.FixedLines | src/main/java/com/at/avro/formatters/SchemaFormatter.java:20-27 | the type, name, namespace and optional doc lines are the header's first entries |
| Formatters.PropertyLines | src/main/java/com/at/avro/formatters/SchemaFormatter.java:29-31 | the loop over the custom properties appends one line per property, in order |
| Formatters.HeaderLines | src/main/java/com/at/avro/formatters/SchemaFormatter.java:20-31 | the builder holds the lines of the header entries, in header order |
| Formatters.ToJson | src/main/java/com/at/avro/formatters/SchemaFormatter.java:17-40 | the builder's text is the schema text: opening brace, header, the `"fields"` array holding the formatted field list, closing brace |
| Formatters.KeyJsonIsRenamedFullJson | src/main/java/com/at/avro/formatters/SchemaKeyFormatter.java:8-20 | without lower-casing, the key text is the full text of the same schema renamed with `_KEY` and holding its keys as fields |
| Formatters.KeyJsonListsKeys | src/main/java/com/at/avro/formatters/SchemaKeyFormatter.java:17-20 | the key formatter lists exactly the keys, and never a non-key field |
| Formatters.AsWrittenKeyNameDiffers | src/main/java/com/at/avro/formatters/SchemaKeyFormatter.java:12-15 | the hook as written gives a name four characters shorter than the `_KEY` name, so never that name |
| Extractor.DatabaseName | src/main/java/com/at/avro/DbSchemaExtractor.java:74-80 | absent iff the URL has no `databaseName=`; otherwise the text after its first occurrence, running to the end or to the next `&`, with no `&` inside |
| Extractor.DatabaseNameOfUrl | src/main/java/com/at/avro/DbSchemaExtractor.java:74-80 | a URL built from a prefix without the key, the key, a name without `&`, and nothing or `&`-led parameters gives back that name |
| Extractor.SchemaInclusionRegex | src/main/java/com/at/avro/DbSchemaExtractor.java:83-87 | no regex iff there is no schema name; otherwise the database name with an escaped dot, or `.*` without one, then the case-insensitive schema group |
| Extractor.TablePrefix | src/main/java/com/at/avro/DbSchemaExtractor.java:92-100 | the builder holds the database name and a dot when present, then the schema name and a dot when present |
| Extractor.FullTableNames | src/main/java/com/at/avro/DbSchemaExtractor.java:90-105 | there is no table filter exactly when no table names are given |
| Extractor.FullTableNamesMatch | src/main/java/com/at/avro/DbSchemaExtractor.java:102-105 | a prefixed name passes the filter iff the table name was requested |
| Extractor.FullTableNamesCount | src/main/java/com/at/avro/DbSchemaExtractor.java:102-104 | every full name starts with the prefix, and there are as many full names as distinct table names |
| Extractor.FilterSchemas | src/main/java/com/at/avro/DbSchemaExtractor.java:115-119 | keeps no more schemas than were crawled; which ones is stated by FilterSchemasMembers and FilterSchemasAppend |
| Extractor.FilterSchemasMembers | src/main/java/com/at/avro/DbSchemaExtractor.java:115-119 | a schema is kept iff it was crawled and, when a name is given, its catalog name or name equals it ignoring case |
| Extractor.FilterSchemasAppend | src/main/java/com/at/avro/DbSchemaExtractor.java:116-118 | the filter keeps the crawl order |
| Extractor.SchemaMatchIgnoresCase | src/main/java/com/at/avro/DbSchemaExtractor.java:117 | the requested schema name matches the same schemas in any case |
| Extractor.FirstOrNone | src/main/java/com/at/avro/DbSchemaExtractor.java:57-65 | nothing iff no schema was found, otherwise the first one |
| Extractor.ContainsIgnoreCase | src/main/java/com/at/avro/DbSchemaExtractor.java:153-160 | true iff some element equals the word ignoring case |

## Left out

- JDBC connections, SchemaCrawler options and the catalog crawl in `DbSchemaExtractor.get` are I/O through a foreign library. The crawled schemas are inputs, and the loop that builds one schema per crawled table is not modelled.
- SchemaCrawler's `Column` and `Table` are plain datatypes. The array check (`getTypeMappedClass() == java.sql.Array.class`) is a boolean field, and the `COLUMN_TYPE` attribute is an optional string. A missing attribute fails with `MissingColumnType` where Java throws a null-pointer exception.
- Classes outside this model are represented as follows:
  - `Decimal` carries the column's size and decimal digits as precision and scale.
  - `Date` is `int`/`date`.
  - `AvroField` is a name (the mapped column name) and an Avro type.
  - `Type.toString` is a parameter of `TemporalToString`.
  - `FormatterConfig` is a datatype. Each field's JSON comes from a function it holds (`fieldJson`).
- Case mapping is ASCII only. Java's Unicode `toLowerCase` and `equalsIgnoreCase` differ from it outside ASCII.
- Regex replacement: `replaceAll(":", colon)` is modelled as a literal replacement. A colon string holding `$` or `\` would be read as replacement syntax in Java: a `\` escapes the next character, and a `$` is a group reference and throws. A colon holding `%` is excluded by the formatter lemmas, because `String.format` would read it as a conversion.
- `String.format` is modelled for `%s` holes only. The number of holes always equals the number of arguments, so the argument-count errors are not modelled.
- Post-processor: the callback's effects are limited to adding custom properties and appending fields or keys. They are applied once, after assembly. Java code could change the schema in any other way.
- Object identity: the keys hold the same field objects as the field list. The model states this as value equality of the key at each primary-key position.
- `AvroSchema.addField` is a private method that is never called. It is not modelled.
- The `Enum` parser is modelled from `com/callfire/avro/types/Enum.java`. The type mapping imports an `Enum` from another package, and that file is not part of this model.
- Schema JSON is not modelled as a parse round trip. The lemmas fix the shape and the order of the text instead.
- Formatters.RecordName: the key record name is `name + "_KEY"` and is not lower-cased, as the key formatter writes it. Only the full record name follows `lowerCaseNames`.
- Formatters.SchemaJson: its own contract states only the braces. The header order and the field list are stated by `HeaderOrder`, the `FormatFields*` lemmas and `ToJson`.
- Extractor.SchemaInclusionRegex: the text of the regex is modelled. Matching it against schema names is left to the regex engine and is not modelled.

## Findings

| source | as written | input that shows it | evidently intended | confidence | as-written member | corrected member |
|---|---|---|---|---|---|---|
| src/main/java/com/at/avro/formatters/SchemaKeyFormatter.java:12-15 | `getRecordName(AvroSchema)` has one parameter, so it does not replace the two-parameter hook that `toJson` calls (SchemaFormatter.java:22, 60-62). `@Override` on it is also rejected by the compiler. | a schema named `orders`: the key schema's `name` line would read `orders`, the same as the full schema's | the key record is named `orders_KEY` | not executed | Formatters.AsWrittenKeyNameDiffers | Formatters.RecordName |
