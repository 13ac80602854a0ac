/**
 * The string handling of DbSchemaExtractor around the catalog crawl: the
 * database name taken from a JDBC URL, the schema inclusion regex, the
 * prefix that turns table names into full table names, the schema-name
 * filter, `getForTable`'s choice of result and `containsIgnoreCase`.
 */
module Extractor {
  import opened Results
  import opened Text
  import opened Catalog

  /** The URL parameter that names an SQL Server database. */
  const DatabaseNameKey := "databaseName="

  // ---------------------------------------------------------------------------
  // The database name in the connection URL

  /**
   * The text after the first `databaseName=` up to the first `&` after it,
   * or to the end; None when the URL has no `databaseName=`.
   */
  function DatabaseName(url: string): (r: Option<string>)
    ensures r.None? <==> forall i :: !OccursAt(url, DatabaseNameKey, i)
    ensures r.Some? ==> '&' !in r.value
    ensures r.Some? ==> exists i :: OccursAt(url, DatabaseNameKey, i) && IsValueAt(url, i + |DatabaseNameKey|, r.value)
    ensures r.Some? ==> IsValueAt(url, IndexOf(url, DatabaseNameKey) + |DatabaseNameKey|, r.value)
  {
    var i := IndexOf(url, DatabaseNameKey);
    if i < 0 then None
    else
      var rest := url[i + |DatabaseNameKey|..];
      var j := IndexOf(rest, "&");
      var value := if j >= 0 then rest[..j] else rest;
      assert j >= 0 ==> rest[j] == "&"[0];
      assert IsValueAt(url, i + |DatabaseNameKey|, value);
      NoAmpersandBefore(rest, |value|);
      Some(value)
  }

  /** Where `&` does not occur before `n`, the first `n` characters hold no `&`. */
  lemma NoAmpersandBefore(s: string, n: nat)
    requires n <= |s|
    requires forall k :: 0 <= k < n ==> !OccursAt(s, "&", k)
    ensures '&' !in s[..n]
  {
    forall k | 0 <= k < n
      ensures s[k] != '&'
    {
      assert !OccursAt(s, "&", k);
      assert s[k..k + 1] == [s[k]];
    }
  }

  /** `value` starts at `start` in the URL and runs to the end or to an `&`. */
  predicate IsValueAt(url: string, start: int, value: string)
  {
    && 0 <= start
    && start + |value| <= |url|
    && url[start..start + |value|] == value
    && (start + |value| == |url| || url[start + |value|] == '&')
  }

  /**
   * A URL made of a part without the key, the key, a name without `&` and
   * either nothing or an `&` with further parameters yields that name.
   */
  lemma DatabaseNameOfUrl(front: string, name: string, tail: string)
    requires forall j :: 0 <= j < |front| ==> !OccursAt(front + DatabaseNameKey + name + tail, DatabaseNameKey, j)
    requires '&' !in name
    requires tail == [] || tail[0] == '&'
    ensures DatabaseName(front + DatabaseNameKey + name + tail) == Some(name)
  {
    var key := DatabaseNameKey;
    var url := front + key + name + tail;
    assert url[|front|..|front| + |key|] == key;
    IndexOfFirst(url, key, |front|);
    var rest := url[|front| + |key|..];
    assert rest == name + tail;
    forall k | 0 <= k < |name|
      ensures !OccursAt(rest, "&", k)
    {
      assert rest[k..k + 1][0] == name[k];
    }
    if tail != [] {
      assert rest[|name|..|name| + 1] == "&";
      IndexOfFirst(rest, "&", |name|);
      assert rest[..|name|] == name;
    } else {
      assert |rest| == |name|;
      IndexOfAbsent(rest, "&");
    }
  }

  // ---------------------------------------------------------------------------
  // The load filters

  /**
   * The regular expression a schema must match: with a database name, the
   * name, an escaped dot and the schema name matched ignoring case; without
   * one, any prefix and the schema name; and no filter without a schema name.
   */
  function SchemaInclusionRegex(databaseName: Option<string>, schemaName: Option<string>): (r: Option<string>)
    ensures r.None? <==> schemaName.None?
    ensures r.Some? ==> r.value == RegexPrefix(databaseName) + "((?i)" + schemaName.value + ")"
  {
    if databaseName.Some? && schemaName.Some? then
      Some(databaseName.value + "\\.((?i)" + schemaName.value + ")")
    else if schemaName.Some? then
      Some(".*((?i)" + schemaName.value + ")")
    else None
  }

  /** The part of the regex before the schema group: the database name and an escaped dot, or `.*`. */
  function RegexPrefix(databaseName: Option<string>): string
  {
    if databaseName.Some? then databaseName.value + "\\." else ".*"
  }

  /** The text every requested table name is prefixed with: the database and the schema, each followed by a dot. */
  function TablePrefixOf(databaseName: Option<string>, schemaName: Option<string>): string
  {
    (if databaseName.Some? then databaseName.value + "." else "")
      + (if schemaName.Some? then schemaName.value + "." else "")
  }

  /** The prefix as the source builds it, appending to a builder. */
  method TablePrefix(databaseName: Option<string>, schemaName: Option<string>) returns (prefix: string)
    ensures prefix == TablePrefixOf(databaseName, schemaName)
    ensures |prefix| == (if databaseName.Some? then |databaseName.value| + 1 else 0)
                        + (if schemaName.Some? then |schemaName.value| + 1 else 0)
  {
    prefix := "";
    if databaseName.Some? {
      prefix := prefix + databaseName.value;
      prefix := prefix + ".";
    }
    if schemaName.Some? {
      prefix := prefix + schemaName.value;
      prefix := prefix + ".";
    }
  }

  /** The set of full table names a table must be in; None (no table filter) when no table names are given. */
  function FullTableNames(databaseName: Option<string>, schemaName: Option<string>, tableNames: seq<string>): (r: Option<set<string>>)
    ensures r.None? <==> tableNames == []
  {
    if tableNames == [] then None
    else
      var prefix := TablePrefixOf(databaseName, schemaName);
      Some(set t | t in tableNames :: prefix + t)
  }

  /** A table passes the filter exactly when its name is one of the requested names. */
  lemma FullTableNamesMatch(databaseName: Option<string>, schemaName: Option<string>, tableNames: seq<string>, table: string)
    requires tableNames != []
    ensures var prefix := TablePrefixOf(databaseName, schemaName);
      prefix + table in FullTableNames(databaseName, schemaName, tableNames).value <==> table in tableNames
  {
    var prefix := TablePrefixOf(databaseName, schemaName);
    if prefix + table in FullTableNames(databaseName, schemaName, tableNames).value {
      var t :| t in tableNames && prefix + t == prefix + table;
      assert t == (prefix + t)[|prefix|..];
      assert table == (prefix + table)[|prefix|..];
    }
  }

  /** Every full name starts with the prefix, and distinct table names stay distinct. */
  lemma FullTableNamesCount(databaseName: Option<string>, schemaName: Option<string>, tableNames: seq<string>)
    requires tableNames != []
    ensures var prefix := TablePrefixOf(databaseName, schemaName);
      var names := FullTableNames(databaseName, schemaName, tableNames).value;
      && (forall n :: n in names ==> |prefix| <= |n| && n[..|prefix|] == prefix)
      && |names| == |set t | t in tableNames|
  {
    var prefix := TablePrefixOf(databaseName, schemaName);
    var names := FullTableNames(databaseName, schemaName, tableNames).value;
    var tables := set t | t in tableNames;
    forall n | n in names
      ensures |prefix| <= |n| && n[..|prefix|] == prefix
    {
      var t :| t in tableNames && n == prefix + t;
    }
    PrefixedCount(prefix, tables);
    assert names == set t | t in tables :: prefix + t;
  }

  /** Putting the same prefix in front of every name of a set keeps its size. */
  lemma {:induction false} PrefixedCount(prefix: string, tables: set<string>)
    ensures |set t | t in tables :: prefix + t| == |tables|
    decreases |tables|
  {
    if tables != {} {
      var t0 :| t0 in tables;
      var others := tables - {t0};
      PrefixedCount(prefix, others);
      var all := set t | t in tables :: prefix + t;
      var rest := set t | t in others :: prefix + t;
      forall t | t in others
        ensures prefix + t != prefix + t0
      {
        assert (prefix + t)[|prefix|..] == t && (prefix + t0)[|prefix|..] == t0;
      }
      assert all == rest + {prefix + t0};
    }
  }

  // ---------------------------------------------------------------------------
  // The schema-name filter

  /** `dbSchemaName.equalsIgnoreCase(x)`: false when `x` is null. */
  predicate EqualsIgnoreCaseOrNull(name: string, x: Option<string>)
  {
    x.Some? && EqualsIgnoreCase(name, x.value)
  }

  /** The schema's catalog name or its name equals the requested name, ignoring case. */
  predicate SchemaMatches(name: string, schema: DbSchema)
  {
    EqualsIgnoreCaseOrNull(name, schema.catalogName) || EqualsIgnoreCaseOrNull(name, schema.name)
  }

  /** The crawled schemas kept: all of them without a schema name, otherwise those that match, in order. */
  function FilterSchemas(schemaName: Option<string>, schemas: seq<DbSchema>): (r: seq<DbSchema>)
    ensures |r| <= |schemas|
  {
    if schemaName.None? || schemas == [] then schemas
    else
      var rest := FilterSchemas(schemaName, schemas[1..]);
      if SchemaMatches(schemaName.value, schemas[0]) then [schemas[0]] + rest else rest
  }

  /** A schema is kept exactly when it was crawled and, given a schema name, matches it. */
  lemma {:induction false} FilterSchemasMembers(schemaName: Option<string>, schemas: seq<DbSchema>)
    ensures forall s :: (s in FilterSchemas(schemaName, schemas))
                        <==> (s in schemas && (schemaName.None? || SchemaMatches(schemaName.value, s)))
  {
    if schemaName.Some? && schemas != [] {
      FilterSchemasMembers(schemaName, schemas[1..]);
      assert schemas == [schemas[0]] + schemas[1..];
    }
  }

  /** Filtering keeps the crawl order: it distributes over concatenation. */
  lemma {:induction false} FilterSchemasAppend(schemaName: Option<string>, a: seq<DbSchema>, b: seq<DbSchema>)
    ensures FilterSchemas(schemaName, a + b) == FilterSchemas(schemaName, a) + FilterSchemas(schemaName, b)
  {
    if schemaName.Some? && a != [] {
      assert (a + b)[0] == a[0];
      assert (a + b)[1..] == a[1..] + b;
      FilterSchemasAppend(schemaName, a[1..], b);
    } else if schemaName.Some? {
      assert a + b == b;
    }
  }

  /** The match ignores the case of the requested name. */
  lemma SchemaMatchIgnoresCase(name: string, schema: DbSchema)
    ensures SchemaMatches(name, schema) <==> SchemaMatches(Lower(name), schema)
  {
    LowerIdempotent(name);
  }

  // ---------------------------------------------------------------------------
  // Results

  /** `getForTable`: null when nothing was found, otherwise the first schema. */
  function FirstOrNone<T>(schemas: seq<T>): (r: Option<T>)
    ensures r.None? <==> |schemas| == 0
    ensures r.Some? ==> r.value in schemas && r.value == schemas[0]
  {
    if |schemas| == 0 then None else Some(schemas[0])
  }

  /** `containsIgnoreCase`: a scan that stops at the first element equal to the word ignoring case. */
  method ContainsIgnoreCase(words: array<string>, word: string) returns (found: bool)
    ensures found <==> exists i :: 0 <= i < words.Length && EqualsIgnoreCase(words[i], word)
  {
    for i := 0 to words.Length
      invariant forall j :: 0 <= j < i ==> !EqualsIgnoreCase(words[j], word)
    {
      if EqualsIgnoreCase(words[i], word) {
        return true;
      }
    }
    return false;
  }
}
