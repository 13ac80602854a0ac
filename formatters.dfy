/**
 * The JSON formatters: one template per logical type, and the record
 * formatter that writes the header, the custom properties and the field
 * list of a schema, either all fields or (for the key schema) the keys.
 */
module Formatters {
  import opened Results
  import opened Text
  import opened AvroModel
  import Schema

  /**
   * FormatterConfig.java is not part of this model: its knobs become fields,
   * and `config.getFormatter(field).toJson(field, config)` becomes `fieldJson`.
   */
  datatype FormatterConfig = FormatterConfig(
    colon: string,
    indent: string,
    lineSeparator: string,
    prettyPrintSchema: bool,
    lowerCaseNames: bool,
    fieldJson: AvroField -> string)

  // ---------------------------------------------------------------------------
  // Templates

  /** `String.format` with `%s` holes only: each hole takes the next argument, verbatim. */
  function Format(template: string, args: seq<string>): string
  {
    if |template| >= 2 && template[0] == '%' && template[1] == 's' then
      (if args == [] then "" else args[0]) + Format(template[2..], if args == [] then [] else args[1..])
    else if template == [] then []
    else [template[0]] + Format(template[1..], args)
  }

  lemma {:induction false} FormatPlain(text: string, rest: string, args: seq<string>)
    requires '%' !in text
    ensures Format(text + rest, args) == text + Format(rest, args)
  {
    if text != [] {
      var whole := text + rest;
      assert whole[0] == text[0] != '%';
      assert whole[1..] == text[1..] + rest;
      FormatPlain(text[1..], rest, args);
      assert Format(whole, args) == [text[0]] + Format(whole[1..], args);
      assert [text[0]] + text[1..] == text;
    } else {
      assert text + rest == rest;
    }
  }

  lemma FormatHole(rest: string, arg: string, args: seq<string>)
    ensures Format("%s" + rest, [arg] + args) == arg + Format(rest, args)
  {
    assert ("%s" + rest)[2..] == rest;
    assert ([arg] + args)[1..] == args;
  }

  /** The template of the date, time and timestamp formatters, one literal in the source, written here slot by slot. */
  const LogicalTemplate := "{ \"type\":\"%s" + "\", \"logicalType\":\"%s" + "\"}"

  /** The template of the decimal formatter (no `java-class` key), one literal in the source, written here slot by slot. */
  const DecimalTemplate := "{ \"type\":\"%s" + "\", \"logicalType\":\"%s" + "\", \"precision\":%s" + ", \"scale\":%s" + " }"

  /** `template.replaceAll(":", colon)`: every colon of the template, before any value is inserted. */
  function WithColon(template: string, colon: string): string
  {
    ReplaceChar(template, ':', colon)
  }

  /** The text of a type with a primitive and a logical type, for a colon without `%`. */
  function LogicalJsonShape(primitive: string, logical: string, colon: string): string
  {
    "{ \"type\"" + colon + "\"" + primitive + "\", \"logicalType\"" + colon + "\"" + logical + "\"}"
  }

  /**
   * A template of the shape the formatters use: for each key, the key
   * text, a colon, the text that opens the value and a `%s` hole; then an
   * end text.
   */
  function Template(keys: seq<string>, opens: seq<string>, end: string): string
    requires |opens| == |keys|
  {
    if keys == [] then end
    else keys[0] + ":" + opens[0] + "%s" + Template(keys[1..], opens[1..], end)
  }

  /** The same shape with the colon replaced and each hole holding its value. */
  function Filled(keys: seq<string>, opens: seq<string>, end: string, colon: string, values: seq<string>): string
    requires |opens| == |keys| && |values| == |keys|
  {
    if keys == [] then end
    else keys[0] + colon + opens[0] + values[0] + Filled(keys[1..], opens[1..], end, colon, values[1..])
  }

  /** A literal piece of a template: no colon and no `%`. */
  predicate Plain(piece: string)
  {
    ':' !in piece && '%' !in piece
  }

  /** One slot of a template: the key's colon is replaced, the rest of the template is left to the next slot. */
  lemma SlotColon(key: string, open: string, rest: string, colon: string)
    requires Plain(key) && Plain(open)
    ensures WithColon(key + ":" + open + "%s" + rest, colon) == key + colon + open + "%s" + WithColon(rest, colon)
  {
    ReplaceCharAppend(key + ":" + open + "%s", rest, ':', colon);
    ReplaceCharAppend(key + ":" + open, "%s", ':', colon);
    ReplaceCharAppend(key + ":", open, ':', colon);
    ReplaceCharAppend(key, ":", ':', colon);
    ReplaceCharAbsent(key, ':', colon);
    ReplaceCharAbsent(open, ':', colon);
    ReplaceCharAbsent("%s", ':', colon);
    assert ReplaceChar(":", ':', colon) == colon + ReplaceChar("", ':', colon) == colon;
  }

  /** One slot of a replaced template: its hole takes the next value verbatim. */
  lemma SlotFormat(key: string, open: string, rest: string, colon: string, value: string, values: seq<string>)
    requires Plain(key) && Plain(open) && '%' !in colon
    ensures Format(key + colon + open + "%s" + rest, [value] + values) == key + colon + open + value + Format(rest, values)
  {
    var front := key + colon + open;
    assert '%' !in front;
    assert front + "%s" + rest == front + ("%s" + rest);
    FormatPlain(front, "%s" + rest, [value] + values);
    FormatHole(rest, value, values);
  }

  /**
   * Replacing the template's colons and then formatting puts the colon
   * between each key and its value, and each value verbatim into its hole.
   */
  lemma {:induction false} FillTemplate(keys: seq<string>, opens: seq<string>, end: string, colon: string, values: seq<string>)
    requires |opens| == |keys| && |values| == |keys|
    requires forall i :: 0 <= i < |keys| ==> Plain(keys[i]) && Plain(opens[i])
    requires Plain(end) && '%' !in colon
    ensures Format(WithColon(Template(keys, opens, end), colon), values) == Filled(keys, opens, end, colon, values)
  {
    if keys == [] {
      ReplaceCharAbsent(end, ':', colon);
      FormatPlain(end, "", values);
      assert end + "" == end;
      assert Format("", values) == "";
    } else {
      var rest := Template(keys[1..], opens[1..], end);
      SlotColon(keys[0], opens[0], rest, colon);
      assert values == [values[0]] + values[1..];
      SlotFormat(keys[0], opens[0], WithColon(rest, colon), colon, values[0], values[1..]);
      FillTemplate(keys[1..], opens[1..], end, colon, values[1..]);
    }
  }

  /** A two-slot template and its filling, written out. */
  lemma TwoSlots(k0: string, o0: string, k1: string, o1: string, end: string, colon: string, v0: string, v1: string)
    ensures Template([k0, k1], [o0, o1], end) == k0 + ":" + o0 + "%s" + (k1 + ":" + o1 + "%s" + end)
    ensures Filled([k0, k1], [o0, o1], end, colon, [v0, v1]) == k0 + colon + o0 + v0 + (k1 + colon + o1 + v1 + end)
  {
    assert [k0, k1][1..] == [k1] && [o0, o1][1..] == [o1] && [v0, v1][1..] == [v1];
    assert Template([k1], [o1], end) == k1 + ":" + o1 + "%s" + Template([], [], end);
    assert Filled([k1], [o1], end, colon, [v1]) == k1 + colon + o1 + v1 + Filled([], [], end, colon, []);
  }

  /** The shared template cut into its two slots: every key and opening is plain. */
  lemma LogicalTemplatePieces(k0: string, k1: string, q: string, end: string)
    requires k0 == "{ \"type\"" && k1 == "\", \"logicalType\"" && q == "\"" && end == "\"}"
    ensures LogicalTemplate == k0 + ":" + q + "%s" + (k1 + ":" + q + "%s" + end)
    ensures Plain(k0) && Plain(k1) && Plain(q) && Plain(end)
  {
    assert k0 + ":" + q + "%s" == "{ \"type\":\"%s";
    assert k1 + ":" + q + "%s" == "\", \"logicalType\":\"%s";
  }

  /** The shared template, filled: both values quoted, `type` first, only the template's colons replaced. */
  lemma LogicalTemplateFilled(primitive: string, logical: string, colon: string)
    requires '%' !in colon
    ensures Format(WithColon(LogicalTemplate, colon), [primitive, logical]) == LogicalJsonShape(primitive, logical, colon)
  {
    var k0, o0, k1, o1, end := "{ \"type\"", "\"", "\", \"logicalType\"", "\"", "\"}";
    LogicalTemplatePieces(k0, k1, o0, end);
    TwoSlots(k0, o0, k1, o1, end, colon, primitive, logical);
    FillTemplate([k0, k1], [o0, o1], end, colon, [primitive, logical]);
  }

  /** DateFormatter `toJson`. */
  function DateToJson(date: DateType, config: FormatterConfig): string
  {
    Format(WithColon(LogicalTemplate, config.colon), [date.PrimitiveType(), date.LogicalType()])
  }

  /** TimeFormatter `toJson`. */
  function TimeToJson(time: TemporalType, config: FormatterConfig): string
  {
    Format(WithColon(LogicalTemplate, config.colon), [time.primitiveType, time.logicalType])
  }

  /** TimestampFormatter `toJson`. */
  function TimestampToJson(timestamp: TemporalType, config: FormatterConfig): string
  {
    Format(WithColon(LogicalTemplate, config.colon), [timestamp.primitiveType, timestamp.logicalType])
  }

  /** DecimalFormatter `toJson`: precision and scale are printed as numbers, unquoted. */
  function DecimalToJson(decimal: DecimalType, config: FormatterConfig): string
  {
    Format(WithColon(DecimalTemplate, config.colon),
      [decimal.PrimitiveType(), decimal.LogicalType(), IntToString(decimal.precision), IntToString(decimal.scale)])
  }

  /** A date is `{ "type":"int", "logicalType":"date"}` with the configured colon. */
  lemma DateJson(date: DateType, config: FormatterConfig)
    requires '%' !in config.colon
    ensures DateToJson(date, config) == LogicalJsonShape("int", "date", config.colon)
  {
    LogicalTemplateFilled("int", "date", config.colon);
  }

  /** A time or timestamp writes its primitive and logical type verbatim, even when they hold colons. */
  lemma TemporalJson(t: TemporalType, config: FormatterConfig)
    requires '%' !in config.colon
    ensures TimeToJson(t, config) == LogicalJsonShape(t.primitiveType, t.logicalType, config.colon)
    ensures TimestampToJson(t, config) == LogicalJsonShape(t.primitiveType, t.logicalType, config.colon)
  {
    LogicalTemplateFilled(t.primitiveType, t.logicalType, config.colon);
  }

  /** The three formatters agree: equal primitive and logical types give the same text. */
  lemma LogicalFormattersAgree(date: DateType, time: TemporalType, timestamp: TemporalType, config: FormatterConfig)
    requires time.primitiveType == timestamp.primitiveType && time.logicalType == timestamp.logicalType
    ensures TimeToJson(time, config) == TimestampToJson(timestamp, config)
    ensures time.primitiveType == "int" && time.logicalType == "date" ==> TimeToJson(time, config) == DateToJson(date, config)
  {
  }

  /** The decimal text for a colon without `%`: type, logicalType, precision, scale, in that order. */
  function DecimalJsonShape(primitive: string, logical: string, precision: string, scale: string, colon: string): string
  {
    "{ \"type\"" + colon + "\"" + primitive
      + ("\", \"logicalType\"" + colon + "\"" + logical
      + ("\", \"precision\"" + colon + precision
      + (", \"scale\"" + colon + scale + " }")))
  }

  /** Peeling one slot off the front of a template and of its filling. */
  lemma SlotStep(k: string, o: string, v: string, keys: seq<string>, opens: seq<string>, end: string, colon: string, values: seq<string>)
    requires |opens| == |keys| && |values| == |keys|
    ensures Template([k] + keys, [o] + opens, end) == k + ":" + o + "%s" + Template(keys, opens, end)
    ensures Filled([k] + keys, [o] + opens, end, colon, [v] + values) == k + colon + o + v + Filled(keys, opens, end, colon, values)
  {
    assert ([k] + keys)[1..] == keys && ([o] + opens)[1..] == opens && ([v] + values)[1..] == values;
  }

  /** The decimal template cut into its four slots: every key and opening is plain. */
  lemma DecimalTemplatePieces(k0: string, k1: string, k2: string, k3: string, q: string, e: string, end: string)
    requires k0 == "{ \"type\"" && k1 == "\", \"logicalType\"" && k2 == "\", \"precision\"" && k3 == ", \"scale\""
    requires q == "\"" && e == "" && end == " }"
    ensures DecimalTemplate
      == k0 + ":" + q + "%s" + (k1 + ":" + q + "%s" + (k2 + ":" + e + "%s" + (k3 + ":" + e + "%s" + end)))
    ensures Plain(k0) && Plain(k1) && Plain(k2) && Plain(k3) && Plain(end) && Plain(q) && Plain(e)
  {
    assert k0 + ":" + q + "%s" == "{ \"type\":\"%s";
    assert k1 + ":" + q + "%s" == "\", \"logicalType\":\"%s";
    assert k2 + ":" + e + "%s" == "\", \"precision\":%s";
    assert k3 + ":" + e + "%s" == ", \"scale\":%s";
  }

  /** A four-slot template and its filling, written out. */
  lemma FourSlots(k0: string, k1: string, k2: string, k3: string, o0: string, o1: string, o2: string, o3: string,
                  v0: string, v1: string, v2: string, v3: string, end: string, colon: string)
    ensures Template([k0, k1, k2, k3], [o0, o1, o2, o3], end)
      == k0 + ":" + o0 + "%s" + (k1 + ":" + o1 + "%s" + (k2 + ":" + o2 + "%s" + (k3 + ":" + o3 + "%s" + end)))
    ensures Filled([k0, k1, k2, k3], [o0, o1, o2, o3], end, colon, [v0, v1, v2, v3])
      == k0 + colon + o0 + v0 + (k1 + colon + o1 + v1 + (k2 + colon + o2 + v2 + (k3 + colon + o3 + v3 + end)))
  {
    SlotStep(k3, o3, v3, [], [], end, colon, []);
    assert [k3] + [] == [k3] && [o3] + [] == [o3] && [v3] + [] == [v3];
    SlotStep(k2, o2, v2, [k3], [o3], end, colon, [v3]);
    assert [k2] + [k3] == [k2, k3] && [o2] + [o3] == [o2, o3] && [v2] + [v3] == [v2, v3];
    SlotStep(k1, o1, v1, [k2, k3], [o2, o3], end, colon, [v2, v3]);
    assert [k1] + [k2, k3] == [k1, k2, k3] && [o1] + [o2, o3] == [o1, o2, o3] && [v1] + [v2, v3] == [v1, v2, v3];
    SlotStep(k0, o0, v0, [k1, k2, k3], [o1, o2, o3], end, colon, [v1, v2, v3]);
    assert [k0] + [k1, k2, k3] == [k0, k1, k2, k3] && [o0] + [o1, o2, o3] == [o0, o1, o2, o3];
    assert [v0] + [v1, v2, v3] == [v0, v1, v2, v3];
  }

  /** Any template cut into four plain slots, with its colons replaced and filled, is the four slots written out. */
  lemma FourSlotsFilled(k0: string, k1: string, k2: string, k3: string, o0: string, o1: string, o2: string, o3: string,
                        v0: string, v1: string, v2: string, v3: string, end: string, colon: string, template: string)
    requires Plain(k0) && Plain(k1) && Plain(k2) && Plain(k3) && Plain(o0) && Plain(o1) && Plain(o2) && Plain(o3)
    requires Plain(end) && '%' !in colon
    requires template == k0 + ":" + o0 + "%s" + (k1 + ":" + o1 + "%s" + (k2 + ":" + o2 + "%s" + (k3 + ":" + o3 + "%s" + end)))
    ensures Format(WithColon(template, colon), [v0, v1, v2, v3])
      == k0 + colon + o0 + v0 + (k1 + colon + o1 + v1 + (k2 + colon + o2 + v2 + (k3 + colon + o3 + v3 + end)))
  {
    var keys, opens, values := [k0, k1, k2, k3], [o0, o1, o2, o3], [v0, v1, v2, v3];
    FourSlots(k0, k1, k2, k3, o0, o1, o2, o3, v0, v1, v2, v3, end, colon);
    assert forall i :: 0 <= i < |keys| ==> Plain(keys[i]) && Plain(opens[i]);
    FillTemplate(keys, opens, end, colon, values);
  }

  /** A decimal: `bytes`/`decimal` quoted, then precision and scale unquoted, and no `java-class` key. */
  lemma DecimalJson(decimal: DecimalType, config: FormatterConfig)
    requires '%' !in config.colon
    ensures DecimalToJson(decimal, config)
      == DecimalJsonShape("bytes", "decimal", IntToString(decimal.precision), IntToString(decimal.scale), config.colon)
  {
    var v0, v1, v2, v3 := decimal.PrimitiveType(), decimal.LogicalType(), IntToString(decimal.precision), IntToString(decimal.scale);
    var k0, k1, k2, k3 := "{ \"type\"", "\", \"logicalType\"", "\", \"precision\"", ", \"scale\"";
    var q, e, end, colon := "\"", "", " }", config.colon;
    DecimalTemplatePieces(k0, k1, k2, k3, q, e, end);
    FourSlotsFilled(k0, k1, k2, k3, q, q, e, e, v0, v1, v2, v3, end, colon, DecimalTemplate);
    assert k2 + colon + e + v2 == k2 + colon + v2 && k3 + colon + e + v3 == k3 + colon + v3;
    assert DecimalToJson(decimal, config) == Format(WithColon(DecimalTemplate, colon), [v0, v1, v2, v3]);
    assert DecimalJsonShape(v0, v1, v2, v3, colon)
      == k0 + colon + q + v0 + (k1 + colon + q + v1 + (k2 + colon + e + v2 + (k3 + colon + e + v3 + end)));
  }

  // ---------------------------------------------------------------------------
  // The record formatter

  /** Which formatter: SchemaFormatter, or SchemaKeyFormatter with its overrides. */
  datatype Variant = FullSchema | KeySchema

  const KeySuffix := "_KEY"

  /** `formatLine`: indent, quoted name, colon, quoted value, a comma, a space unless pretty-printing, a line separator. */
  function FormatLine(config: FormatterConfig, name: string, value: string): string
  {
    var shownName := if config.lowerCaseNames then Lower(name) else name;
    config.indent + "\"" + shownName + "\"" + config.colon + "\"" + value + "\","
      + (if config.prettyPrintSchema then "" else " ") + config.lineSeparator
  }

  /** Lower-casing touches the name of a line and never its value. */
  lemma FormatLineLowerCasesOnlyName(config: FormatterConfig, name: string, value: string)
    ensures FormatLine(config.(lowerCaseNames := true), name, value)
      == FormatLine(config.(lowerCaseNames := false), Lower(name), value)
    ensures FormatLine(config.(lowerCaseNames := true), name, value)
      != FormatLine(config.(lowerCaseNames := true), name, Lower(value))
      <==> value != Lower(value)
  {
    var c := config.(lowerCaseNames := true);
    var front := c.indent + "\"" + Lower(name) + "\"" + c.colon + "\"";
    var back := "\"," + (if c.prettyPrintSchema then "" else " ") + c.lineSeparator;
    assert FormatLine(c, name, value) == front + value + back;
    assert FormatLine(c, name, Lower(value)) == front + Lower(value) + back;
    if front + value + back == front + Lower(value) + back {
      assert value == (front + value + back)[|front|..|front| + |value|];
      assert Lower(value) == (front + Lower(value) + back)[|front|..|front| + |value|];
    }
  }

  /** The record name: the schema's name, lower-cased on request; the key formatter's override appends `_KEY`. */
  function RecordName(variant: Variant, config: FormatterConfig, name: string): (r: string)
    ensures variant.KeySchema? ==> |r| == |name| + 4 && r[..|name|] == name && r[|name|..] == KeySuffix
  {
    match variant
    case FullSchema => if config.lowerCaseNames then Lower(name) else name
    case KeySchema => name + KeySuffix
  }

  /** `getFields`: all fields, or the keys for the key formatter. */
  function FieldsToFormat(variant: Variant, state: SchemaState): seq<AvroField>
  {
    match variant
    case FullSchema => state.fields
    case KeySchema => state.keys
  }

  /** The name/value pairs of the header, in output order. */
  function HeaderEntries(variant: Variant, config: FormatterConfig, state: SchemaState): seq<(string, string)>
  {
    [("type", "record"), ("name", RecordName(variant, config, state.name)), ("namespace", state.namespace)]
      + (if Schema.DocIsSet(state.doc) then [("doc", state.doc.value)] else [])
      + state.customProperties
  }

  /** The header order: type, name, namespace, doc only when set, then the custom properties in insertion order. */
  lemma HeaderOrder(variant: Variant, config: FormatterConfig, state: SchemaState)
    ensures var entries := HeaderEntries(variant, config, state);
      var k := if Schema.DocIsSet(state.doc) then 4 else 3;
      && |entries| == k + |state.customProperties|
      && entries[0] == ("type", "record")
      && entries[1] == ("name", RecordName(variant, config, state.name))
      && entries[2] == ("namespace", state.namespace)
      && (Schema.DocIsSet(state.doc) ==> entries[3] == ("doc", state.doc.value))
      && entries[k..] == state.customProperties
  {
  }

  /** The header lines, one `formatLine` per entry. */
  function Lines(config: FormatterConfig, entries: seq<(string, string)>): string
  {
    if entries == [] then ""
    else Lines(config, entries[..|entries| - 1]) + FormatLine(config, entries[|entries| - 1].0, entries[|entries| - 1].1)
  }

  lemma LinesSnoc(config: FormatterConfig, entries: seq<(string, string)>, name: string, value: string)
    ensures Lines(config, entries + [(name, value)]) == Lines(config, entries) + FormatLine(config, name, value)
  {
    assert (entries + [(name, value)])[..|entries|] == entries;
  }

  lemma {:induction false} LinesAppend(config: FormatterConfig, a: seq<(string, string)>, b: seq<(string, string)>)
    ensures Lines(config, a + b) == Lines(config, a) + Lines(config, b)
  {
    if b == [] {
      assert a + b == a;
    } else {
      var front := b[..|b| - 1];
      assert (a + b)[..|a + b| - 1] == a + front;
      LinesAppend(config, a, front);
    }
  }

  /** One field's line before truncation: two indents, the field's JSON, a comma, a line separator. */
  function FieldLine(config: FormatterConfig, field: AvroField): string
  {
    config.indent + config.indent + config.fieldJson(field) + "," + config.lineSeparator
  }

  /** What the loop of `formatFields` has appended after the given fields. */
  function FieldsBlock(config: FormatterConfig, fields: seq<AvroField>): string
  {
    if fields == [] then ""
    else FieldsBlock(config, fields[..|fields| - 1]) + FieldLine(config, fields[|fields| - 1])
  }

  /** `formatFields`: the block without its last two characters, when it has more than one. */
  function FormatFieldsText(config: FormatterConfig, fields: seq<AvroField>): string
  {
    var block := FieldsBlock(config, fields);
    if |block| > 1 then block[..|block| - 2] else block
  }

  /** What each field contributes, without its trailing comma and separator. */
  function FieldTexts(config: FormatterConfig, fields: seq<AvroField>): (texts: seq<string>)
    ensures |texts| == |fields|
  {
    seq(|fields|, i requires 0 <= i < |fields| => config.indent + config.indent + config.fieldJson(fields[i]))
  }

  /** The block is every field once, in order, each followed by a comma and the line separator. */
  lemma {:induction false} FieldsBlockJoin(config: FormatterConfig, fields: seq<AvroField>)
    requires fields != []
    ensures FieldsBlock(config, fields)
      == Join(FieldTexts(config, fields), "," + config.lineSeparator) + "," + config.lineSeparator
  {
    var last := |fields| - 1;
    var front := fields[..last];
    var texts := FieldTexts(config, fields);
    var sep := "," + config.lineSeparator;
    if front == [] {
      assert texts == [texts[0]];
    } else {
      FieldsBlockJoin(config, front);
      assert texts == FieldTexts(config, front) + [texts[last]];
      JoinSnoc(FieldTexts(config, front), texts[last], sep);
    }
  }

  /** No fields, no text. */
  lemma FormatFieldsEmpty(config: FormatterConfig)
    ensures FormatFieldsText(config, []) == ""
  {
  }

  /** With a one-character line separator the truncation removes exactly the last comma and separator. */
  lemma FormatFieldsOneCharSeparator(config: FormatterConfig, fields: seq<AvroField>)
    requires fields != [] && |config.lineSeparator| == 1
    ensures FormatFieldsText(config, fields) == Join(FieldTexts(config, fields), "," + config.lineSeparator)
  {
    FieldsBlockJoin(config, fields);
    var joined := Join(FieldTexts(config, fields), "," + config.lineSeparator);
    assert (joined + "," + config.lineSeparator)[..|joined|] == joined;
  }

  /** With a two-character line separator (`\r\n`) a trailing comma is left after the last field. */
  lemma FormatFieldsTwoCharSeparator(config: FormatterConfig, fields: seq<AvroField>)
    requires fields != [] && |config.lineSeparator| == 2
    ensures FormatFieldsText(config, fields) == Join(FieldTexts(config, fields), "," + config.lineSeparator) + ","
  {
    FieldsBlockJoin(config, fields);
    var joined := Join(FieldTexts(config, fields), "," + config.lineSeparator);
    assert (joined + "," + config.lineSeparator)[..|joined| + 1] == joined + ",";
  }

  /** With an empty line separator the truncation also removes the last character of the last field. */
  lemma FormatFieldsEmptySeparator(config: FormatterConfig, fields: seq<AvroField>)
    requires fields != [] && config.lineSeparator == ""
    requires Join(FieldTexts(config, fields), ",") != ""
    ensures var joined := Join(FieldTexts(config, fields), ",");
      FormatFieldsText(config, fields) == joined[..|joined| - 1]
  {
    FieldsBlockJoin(config, fields);
    var joined := Join(FieldTexts(config, fields), ",");
    assert "," + config.lineSeparator == ",";
    assert (joined + "," + "")[..|joined| - 1] == joined[..|joined| - 1];
  }

  /** `formatFields`, as the source builds it: a loop of appends, then the two-character truncation. */
  method FormatFields(config: FormatterConfig, fields: seq<AvroField>) returns (json: string)
    ensures json == FormatFieldsText(config, fields)
  {
    json := "";
    for i := 0 to |fields|
      invariant json == FieldsBlock(config, fields[..i])
    {
      assert fields[..i + 1][..i] == fields[..i];
      json := json + config.indent + config.indent + config.fieldJson(fields[i]) + "," + config.lineSeparator;
    }
    assert fields[..|fields|] == fields;
    if |json| > 1 {
      json := json[..|json| - 2];
    }
  }

  /** The text `toJson` writes for a schema: the header lines, then the `"fields"` array. */
  function SchemaJson(variant: Variant, config: FormatterConfig, state: SchemaState): (r: string)
    ensures |r| >= 2 && r[0] == '{' && r[|r| - 1] == '}'
  {
    "{" + (if config.prettyPrintSchema then "" else " ") + config.lineSeparator
      + Lines(config, HeaderEntries(variant, config, state))
      + config.lineSeparator + config.indent + "\"fields\"" + config.colon + "[" + config.lineSeparator
      + FormatFieldsText(config, FieldsToFormat(variant, state)) + config.lineSeparator
      + config.indent + "]" + config.lineSeparator + "}"
  }

  lemma ThreeLines(config: FormatterConfig, a: (string, string), b: (string, string), c: (string, string))
    ensures Lines(config, [a, b, c]) == FormatLine(config, a.0, a.1) + FormatLine(config, b.0, b.1) + FormatLine(config, c.0, c.1)
  {
    assert Lines(config, [a]) == FormatLine(config, a.0, a.1) by {
      assert [a][..0] == [];
    }
    assert Lines(config, [a, b]) == Lines(config, [a]) + FormatLine(config, b.0, b.1) by {
      assert [a, b][..1] == [a];
    }
    assert Lines(config, [a, b, c]) == Lines(config, [a, b]) + FormatLine(config, c.0, c.1) by {
      assert [a, b, c][..2] == [a, b];
    }
  }

  /** The fixed lines of `toJson`'s header: type, name, namespace, and the doc when it is set. */
  method FixedLines(variant: Variant, config: FormatterConfig, schema: Schema.AvroSchema)
    returns (lines: string, ghost fixed: seq<(string, string)>)
    ensures lines == Lines(config, fixed)
    ensures fixed + schema.customProperties == HeaderEntries(variant, config, schema.State())
  {
    var recordName := RecordName(variant, config, schema.name);
    fixed := [("type", "record"), ("name", recordName), ("namespace", schema.namespace)];
    ThreeLines(config, fixed[0], fixed[1], fixed[2]);
    lines := FormatLine(config, "type", "record") + FormatLine(config, "name", recordName)
      + FormatLine(config, "namespace", schema.namespace);
    if schema.IsDocSet() {
      LinesSnoc(config, fixed, "doc", schema.doc.value);
      fixed := fixed + [("doc", schema.doc.value)];
      lines := lines + FormatLine(config, "doc", schema.doc.value);
    }
  }

  /** The loop of `toJson` over the custom properties: one line each, in insertion order. */
  method PropertyLines(config: FormatterConfig, start: string, ghost fixed: seq<(string, string)>, props: seq<(string, string)>)
    returns (lines: string)
    requires start == Lines(config, fixed)
    ensures lines == Lines(config, fixed + props)
  {
    lines := start;
    assert fixed + props[..0] == fixed;
    for i := 0 to |props|
      invariant lines == Lines(config, fixed + props[..i])
    {
      LinesSnoc(config, fixed + props[..i], props[i].0, props[i].1);
      assert fixed + props[..i + 1] == fixed + props[..i] + [(props[i].0, props[i].1)];
      lines := lines + FormatLine(config, props[i].0, props[i].1);
    }
    assert props[..|props|] == props;
  }

  /** The header part of `toJson`: the fixed lines, then the custom properties. */
  method HeaderLines(variant: Variant, config: FormatterConfig, schema: Schema.AvroSchema) returns (lines: string)
    ensures lines == Lines(config, HeaderEntries(variant, config, schema.State()))
  {
    var start, fixed := FixedLines(variant, config, schema);
    lines := PropertyLines(config, start, fixed, schema.customProperties);
  }

  /** `toJson`, as the source builds it: appends to a builder, the header lines, then the fields. */
  method ToJson(variant: Variant, config: FormatterConfig, schema: Schema.AvroSchema) returns (json: string)
    ensures json == SchemaJson(variant, config, schema.State())
  {
    json := "{" + (if config.prettyPrintSchema then "" else " ") + config.lineSeparator;
    var header := HeaderLines(variant, config, schema);
    json := json + header;
    var fieldsJson := FormatFields(config, FieldsToFormat(variant, schema.State()));
    json := json + config.lineSeparator + config.indent + "\"fields\"" + config.colon + "[" + config.lineSeparator
      + fieldsJson + config.lineSeparator + config.indent + "]" + config.lineSeparator + "}";
  }

  /**
   * The key schema differs from the full one only in the record name and
   * the field list: without lower-casing, it is the full text of the same
   * schema renamed with `_KEY` and holding the keys as its fields.
   */
  lemma KeyJsonIsRenamedFullJson(config: FormatterConfig, state: SchemaState)
    requires !config.lowerCaseNames
    ensures SchemaJson(KeySchema, config, state)
      == SchemaJson(FullSchema, config, state.(name := state.name + KeySuffix, fields := state.keys))
  {
  }

  /** The key schema never writes a non-key field: its field list is exactly the keys. */
  lemma KeyJsonListsKeys(config: FormatterConfig, state: SchemaState)
    ensures FieldsToFormat(KeySchema, state) == state.keys
    ensures state.keys != [] && |config.lineSeparator| == 1 ==>
      FormatFieldsText(config, FieldsToFormat(KeySchema, state))
        == Join(FieldTexts(config, state.keys), "," + config.lineSeparator)
  {
    if state.keys != [] && |config.lineSeparator| == 1 {
      FormatFieldsOneCharSeparator(config, state.keys);
    }
  }

  /**
   * As written, SchemaKeyFormatter's one-parameter `getRecordName` does not
   * replace the two-parameter hook that `toJson` calls, so the key schema
   * would get the full schema's record name.
   */
  function AsWrittenKeyRecordName(config: FormatterConfig, name: string): string
  {
    RecordName(FullSchema, config, name)
  }

  /** The name the hook yields as written never carries the `_KEY` suffix the key schema needs. */
  lemma AsWrittenKeyNameDiffers(config: FormatterConfig, name: string)
    ensures AsWrittenKeyRecordName(config, name) != RecordName(KeySchema, config, name)
    ensures |RecordName(KeySchema, config, name)| == |AsWrittenKeyRecordName(config, name)| + 4
  {
  }
}
