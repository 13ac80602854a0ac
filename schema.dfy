/**
 * AvroSchema: the schema built from one table. Name, namespace and doc are
 * fixed at construction; the field list, the key list and the custom
 * properties are lists the object appends to.
 */
module Schema {
  import opened Results
  import opened Text
  import opened Catalog
  import opened AvroModel
  import opened Config
  import TypeMapping

  // ---------------------------------------------------------------------------
  // Fields from columns

  /**
   * `new AvroField(column, config)`: the mapped column name and the column's
   * Avro type. How the fields line up with the columns is stated by
   * AssembledShape.
   */
  function NewField(column: Column, config: ConfigView): (r: Result<AvroField, MappingError>)
    ensures r.Success? <==> TypeMapping.GetAvroType(column, config).Success?
    ensures r.Success? ==>
      && r.value.name == config.fieldNameMapper(column.name)
      && r.value.avroType == TypeMapping.GetAvroType(column, config).value
    ensures r.Failure? ==> r.error == TypeMapping.GetAvroType(column, config).error
  {
    match TypeMapping.GetAvroType(column, config)
    case Success(t) => Success(AvroField(config.fieldNameMapper(column.name), t))
    case Failure(e) => Failure(e)
  }

  /** Every column has an Avro type, so the constructor does not throw. */
  predicate AllMapped(columns: seq<Column>, config: ConfigView)
  {
    forall i :: 0 <= i < |columns| ==> NewField(columns[i], config).Success?
  }

  /** One field per column, in column order. */
  function MappedFields(columns: seq<Column>, config: ConfigView): (fields: seq<AvroField>)
    requires AllMapped(columns, config)
    ensures |fields| == |columns|
  {
    seq(|columns|, i requires 0 <= i < |columns| => NewField(columns[i], config).value)
  }

  /** The error of the first column that has no Avro type: the exception that escapes the constructor. */
  function FirstFailure(columns: seq<Column>, config: ConfigView): (e: MappingError)
    requires !AllMapped(columns, config)
  {
    if NewField(columns[0], config).Failure? then NewField(columns[0], config).error
    else
      assert !AllMapped(columns[1..], config) by {
        var i :| 0 <= i < |columns| && NewField(columns[i], config).Failure?;
        assert columns[1..][i - 1] == columns[i];
      }
      FirstFailure(columns[1..], config)
  }

  /** The first failure is the failure of the first failing column, whichever that is. */
  lemma {:induction false} FirstFailureAt(columns: seq<Column>, config: ConfigView, i: nat)
    requires i < |columns| && AllMapped(columns[..i], config) && NewField(columns[i], config).Failure?
    ensures !AllMapped(columns, config)
    ensures FirstFailure(columns, config) == NewField(columns[i], config).error
  {
    assert !AllMapped(columns, config);
    if i > 0 {
      assert columns[0] == columns[..i][0];
      assert columns[1..][..i - 1] == columns[..i][1..];
      assert columns[1..][i - 1] == columns[i];
      FirstFailureAt(columns[1..], config, i - 1);
    }
  }

  /** The indices of the primary-key columns, in increasing order. */
  function KeyIndices(columns: seq<Column>): (indices: seq<nat>)
    ensures forall j :: 0 <= j < |indices| ==> indices[j] < |columns| && columns[indices[j]].isPartOfPrimaryKey
    ensures forall j, k :: 0 <= j < k < |indices| ==> indices[j] < indices[k]
    ensures forall i :: 0 <= i < |columns| && columns[i].isPartOfPrimaryKey ==> i in indices
  {
    if columns == [] then []
    else
      var last := |columns| - 1;
      var front := KeyIndices(columns[..last]);
      assert forall i :: 0 <= i < last ==> columns[..last][i] == columns[i];
      if columns[last].isPartOfPrimaryKey then front + [last] else front
  }

  /** The key list: the fields of the primary-key columns, in column order. */
  function KeyFields(columns: seq<Column>, fields: seq<AvroField>): (keys: seq<AvroField>)
    requires |fields| == |columns|
  {
    if columns == [] then []
    else
      var last := |columns| - 1;
      KeyFields(columns[..last], fields[..last])
        + (if columns[last].isPartOfPrimaryKey then [fields[last]] else [])
  }

  lemma MappedFieldsSnoc(columns: seq<Column>, config: ConfigView, i: nat)
    requires i < |columns| && AllMapped(columns[..i], config) && NewField(columns[i], config).Success?
    ensures AllMapped(columns[..i + 1], config)
    ensures MappedFields(columns[..i + 1], config) == MappedFields(columns[..i], config) + [NewField(columns[i], config).value]
  {
    assert forall k :: 0 <= k < i ==> columns[..i + 1][k] == columns[..i][k];
  }

  lemma KeyFieldsSnoc(columns: seq<Column>, fields: seq<AvroField>, column: Column, field: AvroField)
    requires |fields| == |columns|
    ensures KeyFields(columns + [column], fields + [field])
      == KeyFields(columns, fields) + (if column.isPartOfPrimaryKey then [field] else [])
  {
    assert (columns + [column])[..|columns|] == columns;
    assert (fields + [field])[..|fields|] == fields;
  }

  /** KeyFieldsSnoc for the column at index `i` of a longer list. */
  lemma KeyFieldsStep(columns: seq<Column>, i: nat, fields: seq<AvroField>, field: AvroField)
    requires i < |columns| && |fields| == i
    ensures KeyFields(columns[..i + 1], fields + [field])
      == KeyFields(columns[..i], fields) + (if columns[i].isPartOfPrimaryKey then [field] else [])
  {
    KeyFieldsSnoc(columns[..i], fields, columns[i], field);
    assert columns[..i + 1] == columns[..i] + [columns[i]];
  }

  /** The key list is the field list read at the primary-key indices: an order-preserving subsequence. */
  lemma {:induction false} KeyFieldsAreSubsequence(columns: seq<Column>, fields: seq<AvroField>)
    requires |fields| == |columns|
    ensures |KeyFields(columns, fields)| == |KeyIndices(columns)|
    ensures forall j :: 0 <= j < |KeyIndices(columns)| ==> KeyFields(columns, fields)[j] == fields[KeyIndices(columns)[j]]
  {
    if columns != [] {
      var last := |columns| - 1;
      var front := KeyFields(columns[..last], fields[..last]);
      var frontIndices := KeyIndices(columns[..last]);
      KeyFieldsAreSubsequence(columns[..last], fields[..last]);
      var keys := KeyFields(columns, fields);
      var indices := KeyIndices(columns);
      assert keys[..|front|] == front;
      assert indices[..|frontIndices|] == frontIndices;
      forall j | 0 <= j < |indices| ensures keys[j] == fields[indices[j]] {
        if j < |frontIndices| {
          assert keys[j] == front[j];
          assert indices[j] == frontIndices[j] < last;
          assert front[j] == fields[..last][frontIndices[j]];
        }
      }
    }
  }

  /** No more keys than columns. */
  lemma KeyCountBound(columns: seq<Column>, fields: seq<AvroField>)
    requires |fields| == |columns|
    ensures |KeyFields(columns, fields)| <= |columns|
  {
    KeyFieldsAreSubsequence(columns, fields);
    var indices := KeyIndices(columns);
    StrictlyIncreasingBound(indices, |columns|);
  }

  lemma {:induction false} StrictlyIncreasingBound(indices: seq<nat>, n: nat)
    requires forall j :: 0 <= j < |indices| ==> indices[j] < n
    requires forall j, k :: 0 <= j < k < |indices| ==> indices[j] < indices[k]
    ensures |indices| <= n
  {
    if indices != [] {
      var last := |indices| - 1;
      StrictlyIncreasingBound(indices[..last], indices[last]);
    }
  }

  // ---------------------------------------------------------------------------
  // Custom properties: an insertion-ordered map kept as a list of distinct keys

  type Properties = seq<(string, string)>

  predicate UniqueKeys(props: Properties)
  {
    forall i, j :: 0 <= i < j < |props| ==> props[i].0 != props[j].0
  }

  /** The keys in insertion order. */
  function KeysOf(props: Properties): (keys: seq<string>)
    ensures |keys| == |props|
  {
    seq(|props|, i requires 0 <= i < |props| => props[i].0)
  }

  /** Where `key` sits, or -1. */
  function KeyIndex(props: Properties, key: string): (r: int)
    ensures -1 <= r < |props|
    ensures r >= 0 ==> props[r].0 == key
    ensures r == -1 <==> forall j :: 0 <= j < |props| ==> props[j].0 != key
  {
    if props == [] then -1
    else if props[0].0 == key then 0
    else
      var r := KeyIndex(props[1..], key);
      assert forall j :: 1 <= j < |props| ==> props[1..][j - 1] == props[j];
      if r < 0 then -1 else r + 1
  }

  /** `Map.get`. */
  function Lookup(props: Properties, key: string): Option<string>
  {
    var i := KeyIndex(props, key);
    if i < 0 then None else Some(props[i].1)
  }

  /** `LinkedHashMap.put`. */
  function Put(props: Properties, key: string, value: string): Properties
  {
    var i := KeyIndex(props, key);
    if i < 0 then props + [(key, value)] else props[i := (key, value)]
  }

  /**
   * The insertion-order contract of `put`: a new key goes to the end, an
   * existing key keeps its place with the new value, and every other entry
   * stays where it was with its value; keys stay distinct.
   */
  lemma PutOrder(props: Properties, key: string, value: string)
    requires UniqueKeys(props)
    ensures UniqueKeys(Put(props, key, value))
    ensures key !in KeysOf(props) ==> Put(props, key, value) == props + [(key, value)]
    ensures key in KeysOf(props) ==>
      && |Put(props, key, value)| == |props|
      && KeysOf(Put(props, key, value)) == KeysOf(props)
      && forall i :: 0 <= i < |props| ==>
           Put(props, key, value)[i] == (if props[i].0 == key then (key, value) else props[i])
  {
    var i := KeyIndex(props, key);
    if i < 0 {
      assert key !in KeysOf(props);
    } else {
      assert KeysOf(props)[i] == key;
    }
  }

  /** After `put`, the key reads back the new value and every other key reads back what it did before. */
  lemma PutLookup(props: Properties, key: string, value: string, other: string)
    requires UniqueKeys(props)
    ensures Lookup(Put(props, key, value), key) == Some(value)
    ensures other != key ==> Lookup(Put(props, key, value), other) == Lookup(props, other)
  {
    PutOrder(props, key, value);
    var after := Put(props, key, value);
    var i := KeyIndex(props, key);
    var j := KeyIndex(props, other);
    UniqueIndex(after, key, if i < 0 then |props| else i);
    if other != key {
      if j >= 0 {
        UniqueIndex(after, other, j);
      } else {
        assert forall k :: 0 <= k < |after| ==> after[k].0 != other;
      }
    }
  }

  /** In a list of distinct keys the key at position `i` is found at `i`. */
  lemma UniqueIndex(props: Properties, key: string, i: nat)
    requires UniqueKeys(props) && i < |props| && props[i].0 == key
    ensures KeyIndex(props, key) == i
  {
    var r := KeyIndex(props, key);
    assert r != -1;
  }

  // ---------------------------------------------------------------------------
  // Assembly and post-processing

  /** The doc: the table remarks when SQL comments are used as doc, else none. */
  function DocOf(table: Table, config: ConfigView): Option<string>
  {
    if config.useSqlCommentsAsDoc then table.remarks else None
  }

  /** The schema when the column loop and the extra fields are done, before the post-processor runs. */
  function Assembled(table: Table, config: ConfigView, extraFields: Option<seq<AvroField>>): SchemaState
    requires AllMapped(table.columns, config)
  {
    var mapped := MappedFields(table.columns, config);
    SchemaState(
      config.schemaNameMapper(table.name),
      config.namespace,
      DocOf(table, config),
      mapped + (if extraFields.Some? then extraFields.value else []),
      KeyFields(table.columns, mapped),
      [])
  }

  /** One change made by the post-processor. */
  function ApplyEdit(state: SchemaState, edit: PostEdit): SchemaState
  {
    match edit
    case PutCustomProperty(key, value) => state.(customProperties := Put(state.customProperties, key, value))
    case AppendField(field) => state.(fields := state.fields + [field])
    case AppendKey(field) => state.(keys := state.keys + [field])
  }

  /** The post-processor's changes, in order. */
  function ApplyEdits(state: SchemaState, edits: seq<PostEdit>): SchemaState
  {
    if edits == [] then state
    else ApplyEdit(ApplyEdits(state, edits[..|edits| - 1]), edits[|edits| - 1])
  }

  /** The finished schema: the post-processor runs once, on the assembled schema and the table. */
  function Built(table: Table, config: ConfigView, extraFields: Option<seq<AvroField>>): SchemaState
    requires AllMapped(table.columns, config)
  {
    var assembled := Assembled(table, config, extraFields);
    ApplyEdits(assembled, config.postProcessor(assembled, table))
  }

  /**
   * What the constructor promises before any post-processing: the mapped
   * name, the configured namespace, the doc, one field per column in order
   * followed by the extra fields, and the primary-key fields as keys.
   */
  lemma AssembledShape(table: Table, config: ConfigView, extraFields: Option<seq<AvroField>>)
    requires AllMapped(table.columns, config)
    ensures var s := Assembled(table, config, extraFields);
      var extra := if extraFields.Some? then extraFields.value else [];
      && s.name == config.schemaNameMapper(table.name)
      && s.namespace == config.namespace
      && (config.useSqlCommentsAsDoc ==> s.doc == table.remarks)
      && (!config.useSqlCommentsAsDoc ==> s.doc == None)
      && |s.fields| == |table.columns| + |extra|
      && (forall i :: 0 <= i < |table.columns| ==> NewField(table.columns[i], config) == Success(s.fields[i]))
      && s.fields[|table.columns|..] == extra
      && |s.keys| == |KeyIndices(table.columns)|
      && (forall j :: 0 <= j < |s.keys| ==> s.keys[j] == s.fields[KeyIndices(table.columns)[j]])
      && s.customProperties == []
  {
    var mapped := MappedFields(table.columns, config);
    KeyFieldsAreSubsequence(table.columns, mapped);
  }

  /** Extra fields never enter the key list. */
  lemma ExtraFieldsAreNotKeys(table: Table, config: ConfigView, extra1: Option<seq<AvroField>>, extra2: Option<seq<AvroField>>)
    requires AllMapped(table.columns, config)
    ensures Assembled(table, config, extra1).keys == Assembled(table, config, extra2).keys
    ensures |Assembled(table, config, extra1).keys| <= |table.columns|
  {
    KeyCountBound(table.columns, MappedFields(table.columns, config));
  }

  lemma ApplyEditsSnoc(state: SchemaState, edits: seq<PostEdit>, edit: PostEdit)
    ensures ApplyEdits(state, edits + [edit]) == ApplyEdit(ApplyEdits(state, edits), edit)
  {
    assert (edits + [edit])[..|edits|] == edits;
  }

  /**
   * Whatever the post-processor does, the name, namespace and doc stay as
   * constructed (they are final), the assembled fields and keys stay a
   * prefix of the lists, and the property keys stay distinct.
   */
  lemma {:induction false} ApplyEditsKeeps(state: SchemaState, edits: seq<PostEdit>)
    requires UniqueKeys(state.customProperties)
    ensures var after := ApplyEdits(state, edits);
      && after.name == state.name && after.namespace == state.namespace && after.doc == state.doc
      && |state.fields| <= |after.fields| && after.fields[..|state.fields|] == state.fields
      && |state.keys| <= |after.keys| && after.keys[..|state.keys|] == state.keys
      && UniqueKeys(after.customProperties)
  {
    if edits != [] {
      var front := edits[..|edits| - 1];
      ApplyEditsKeeps(state, front);
      var mid := ApplyEdits(state, front);
      match edits[|edits| - 1]
      case PutCustomProperty(key, value) =>
        PutOrder(mid.customProperties, key, value);
      case AppendField(field) =>
        assert (mid.fields + [field])[..|state.fields|] == mid.fields[..|state.fields|];
      case AppendKey(field) =>
        assert (mid.keys + [field])[..|state.keys|] == mid.keys[..|state.keys|];
    }
  }

  /** With the default post-processor the built schema is the assembled one. */
  lemma DefaultPostProcessorKeepsSchema(table: Table, namespace: string, extraFields: Option<seq<AvroField>>)
    requires AllMapped(table.columns, Defaults(namespace))
    ensures Built(table, Defaults(namespace), extraFields) == Assembled(table, Defaults(namespace), extraFields)
  {
  }

  // ---------------------------------------------------------------------------
  // The object

  /** `StringUtils.isNotBlank(doc)`. */
  predicate DocIsSet(doc: Option<string>)
  {
    doc.Some? && HasNonWhitespace(doc.value)
  }

  /** The `name='...'`, `namespace='...'`, optional `doc='...'`, `fields=`, `customProperties=` entries of `toString`. */
  function ToStringEntries(state: SchemaState, fieldText: AvroField -> string): seq<string>
  {
    ["name='" + state.name + "'", "namespace='" + state.namespace + "'"]
    + (if DocIsSet(state.doc) then ["doc='" + state.doc.value + "'"] else [])
    + ["fields=" + ListText(state.fields, fieldText), "customProperties=" + PropertiesText(state.customProperties)]
  }

  /** `List.toString`, given the text of each element. */
  function ListText(fields: seq<AvroField>, fieldText: AvroField -> string): string
  {
    "[" + Join(seq(|fields|, i requires 0 <= i < |fields| => fieldText(fields[i])), ", ") + "]"
  }

  /** `Map.toString`: `{k1=v1, k2=v2}` in insertion order. */
  function PropertiesText(props: Properties): string
  {
    "{" + Join(seq(|props|, i requires 0 <= i < |props| => props[i].0 + "=" + props[i].1), ", ") + "}"
  }

  predicate StartsWith(s: string, prefix: string)
  {
    |prefix| <= |s| && s[..|prefix|] == prefix
  }

  /** `toString` lists a `doc=` entry exactly when the doc is set, and then as the third entry. */
  lemma ToStringDocEntry(state: SchemaState, fieldText: AvroField -> string)
    ensures var entries := ToStringEntries(state, fieldText);
      && ((exists i :: 0 <= i < |entries| && StartsWith(entries[i], "doc=")) <==> DocIsSet(state.doc))
      && (DocIsSet(state.doc) ==> |entries| == 5 && entries[2] == "doc='" + state.doc.value + "'")
      && (!DocIsSet(state.doc) ==> |entries| == 4)
  {
    var entries := ToStringEntries(state, fieldText);
    var k := if DocIsSet(state.doc) then 1 else 0;
    assert entries[0][..4] == "name";
    assert entries[1][..4] == "name";
    assert entries[2 + k][..4] == "fiel";
    assert entries[3 + k][..4] == "cust";
    if DocIsSet(state.doc) {
      assert StartsWith(entries[2], "doc=");
    }
  }

  class AvroSchema {
    const name: string
    const namespace: string
    const doc: Option<string>
    var fields: seq<AvroField>
    var keys: seq<AvroField>
    var customProperties: Properties

    /** The custom properties are a map: no key twice. */
    predicate Valid()
      reads this
    {
      UniqueKeys(customProperties)
    }

    function State(): SchemaState
      reads this
    {
      SchemaState(name, namespace, doc, fields, keys, customProperties)
    }

    /** An empty schema with its final name, namespace and doc. */
    constructor (name: string, namespace: string, doc: Option<string>)
      ensures State() == SchemaState(name, namespace, doc, [], [], [])
      ensures Valid()
    {
      this.name := name;
      this.namespace := namespace;
      this.doc := doc;
      fields := [];
      keys := [];
      customProperties := [];
    }

    /** `isDocSet`: there is a doc and it has a non-whitespace character. */
    function IsDocSet(): (r: bool)
      reads this
      ensures r <==> doc.Some? && exists i :: 0 <= i < |doc.value| && !IsWhitespace(doc.value[i])
    {
      DocIsSet(doc)
    }

    /** `addCustomProperty`: a `put` into the insertion-ordered map; nothing else changes. */
    method AddCustomProperty(key: string, value: string)
      requires Valid()
      modifies this
      ensures Valid()
      ensures customProperties == Put(old(customProperties), key, value)
      ensures fields == old(fields) && keys == old(keys)
    {
      PutOrder(customProperties, key, value);
      customProperties := Put(customProperties, key, value);
    }

    /** One change a post-processor makes through the schema's methods and lists. */
    method Apply(edit: PostEdit)
      requires Valid()
      modifies this
      ensures Valid()
      ensures State() == ApplyEdit(old(State()), edit)
    {
      match edit
      case PutCustomProperty(key, value) => AddCustomProperty(key, value);
      case AppendField(field) => fields := fields + [field];
      case AppendKey(field) => keys := keys + [field];
    }

    /** The post-processor's changes, one after the other. */
    method ApplyAll(edits: seq<PostEdit>)
      requires Valid()
      modifies this
      ensures Valid()
      ensures State() == ApplyEdits(old(State()), edits)
    {
      ghost var start := State();
      for k := 0 to |edits|
        invariant Valid()
        invariant State() == ApplyEdits(start, edits[..k])
      {
        ApplyEditsSnoc(start, edits[..k], edits[k]);
        assert edits[..k + 1] == edits[..k] + [edits[k]];
        Apply(edits[k]);
      }
      assert edits[..|edits|] == edits;
    }

    /** `toString`: `AvroSchema[` + the entries joined by `, ` + `]`. */
    function ToString(fieldText: AvroField -> string): (r: string)
      reads this
      ensures |r| > 13 && r[..13] == "AvroSchema[na" && r[|r| - 1] == ']'
    {
      var entries := ToStringEntries(State(), fieldText);
      assert Join(entries, ", ") == entries[0] + ", " + Join(entries[1..], ", ");
      "AvroSchema[" + Join(entries, ", ") + "]"
    }
  }

  /** One step of the column loop: the next column's field extends the fields, and the keys when it is a key column. */
  lemma AddColumnStep(columns: seq<Column>, config: ConfigView, i: nat, fields: seq<AvroField>, keys: seq<AvroField>)
    requires i < |columns| && AllMapped(columns[..i], config) && NewField(columns[i], config).Success?
    requires fields == MappedFields(columns[..i], config) && keys == KeyFields(columns[..i], fields)
    ensures AllMapped(columns[..i + 1], config)
    ensures var field := NewField(columns[i], config).value;
      && MappedFields(columns[..i + 1], config) == fields + [field]
      && KeyFields(columns[..i + 1], fields + [field]) == keys + (if columns[i].isPartOfPrimaryKey then [field] else [])
  {
    MappedFieldsSnoc(columns, config, i);
    KeyFieldsStep(columns, i, fields, NewField(columns[i], config).value);
  }

  /**
   * The column loop of the constructor: one field per column, appended to
   * the fields and, for a primary-key column, to the keys. It stops at the
   * first column without an Avro type and reports its error.
   */
  method AddColumnFields(schema: AvroSchema, columns: seq<Column>, view: ConfigView)
    returns (failure: Option<MappingError>)
    requires schema.fields == [] && schema.keys == []
    modifies schema
    ensures failure.None? <==> AllMapped(columns, view)
    ensures failure.Some? ==> !AllMapped(columns, view) && failure.value == FirstFailure(columns, view)
    ensures failure.None? ==> schema.fields == MappedFields(columns, view)
    ensures failure.None? ==> schema.keys == KeyFields(columns, schema.fields)
    ensures schema.customProperties == old(schema.customProperties)
  {
    for i := 0 to |columns|
      invariant AllMapped(columns[..i], view)
      invariant schema.fields == MappedFields(columns[..i], view)
      invariant schema.keys == KeyFields(columns[..i], schema.fields)
      invariant schema.customProperties == old(schema.customProperties)
    {
      var field := NewField(columns[i], view);
      if field.Failure? {
        FirstFailureAt(columns, view, i);
        return Some(field.error);
      }
      AddColumnStep(columns, view, i, schema.fields, schema.keys);
      schema.fields := schema.fields + [field.value];
      if columns[i].isPartOfPrimaryKey {
        schema.keys := schema.keys + [field.value];
      }
    }
    assert columns[..|columns|] == columns;
    return None;
  }

  /**
   * The constructor `new AvroSchema(table, config, extraFields)`. It throws
   * at the first column without an Avro type; otherwise it appends one field
   * per column (and the key fields to the keys), then the extra fields, and
   * runs the post-processor once.
   */
  method NewAvroSchema(table: Table, config: AvroConfig, extraFields: Option<seq<AvroField>>)
    returns (r: Result<AvroSchema, MappingError>)
    ensures r.Success? <==> AllMapped(table.columns, config.View())
    ensures r.Success? ==> fresh(r.value) && r.value.Valid()
    ensures r.Success? ==> r.value.State() == Built(table, config.View(), extraFields)
    ensures r.Failure? ==> !AllMapped(table.columns, config.View()) && r.error == FirstFailure(table.columns, config.View())
  {
    var view := config.View();
    var schema := new AvroSchema(view.schemaNameMapper(table.name), view.namespace, DocOf(table, view));
    var failure := AddColumnFields(schema, table.columns, view);
    if failure.Some? {
      return Failure(failure.value);
    }
    if extraFields.Some? {
      schema.fields := schema.fields + extraFields.value;
    }
    assert schema.State() == Assembled(table, view, extraFields);
    schema.ApplyAll(view.postProcessor(schema.State(), table));
    return Success(schema);
  }
}
