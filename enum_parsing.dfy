/**
 * Enum.java: the symbols of an enum column come from its `COLUMN_TYPE`
 * attribute, e.g. `enum('a','b','c')`. The keyword, the parentheses and the
 * commas are stripped by a chain of string operations; a loop then trims each
 * piece and deletes its quotes, in place.
 */
module EnumParsing {
  import opened Results
  import opened Text
  import opened AvroModel
  import Catalog

  /** The attribute with the first `enum`, the first `ENUM` and every parenthesis removed. */
  function Stripped(columnType: string): string
  {
    RemoveChar(RemoveChar(ReplaceFirst(ReplaceFirst(columnType, "enum", ""), "ENUM", ""), ')'), '(')
  }

  /** The pieces `split(",")` returns, before normalisation. */
  function RawSymbols(columnType: string): seq<string>
  {
    Split(Stripped(columnType), ',')
  }

  /** What the loop stores for one piece: `trim()`, then every `'` deleted. */
  function NormaliseSymbol(piece: string): string
  {
    RemoveChar(Trim(piece), '\'')
  }

  /** The symbols of the enum, in the order of the attribute. */
  function EnumSymbols(columnType: string): (r: seq<string>)
    ensures |r| == |RawSymbols(columnType)|
    ensures forall k :: 0 <= k < |r| ==> |r[k]| <= |RawSymbols(columnType)[k]|
  {
    var raw := RawSymbols(columnType);
    seq(|raw|, i requires 0 <= i < |raw| => NormaliseSymbol(raw[i]))
  }

  /** The enum a column becomes; a missing attribute is Java's NullPointerException. */
  function EnumOf(column: Catalog.Column): (r: Result<Type, MappingError>)
    ensures r.Success? <==> column.columnType.Some?
    ensures r.Success? ==> r.value.Enum? && r.value.enumName == column.name
    ensures r.Failure? ==> r.error == MissingColumnType(column.name)
  {
    match column.columnType
    case None => Failure(MissingColumnType(column.name))
    case Some(columnType) => Success(Enum(column.name, EnumSymbols(columnType)))
  }

  /** The normalisation loop: each `symbols[i]` is rewritten from its own old value, nothing else moves. */
  method NormaliseSymbols(symbols: array<string>)
    modifies symbols
    ensures forall i :: 0 <= i < symbols.Length ==> symbols[i] == NormaliseSymbol(old(symbols[i]))
  {
    for i := 0 to symbols.Length
      invariant forall k :: 0 <= k < i ==> symbols[k] == NormaliseSymbol(old(symbols[k]))
      invariant forall k :: i <= k < symbols.Length ==> symbols[k] == old(symbols[k])
    {
      symbols[i] := NormaliseSymbol(symbols[i]);
    }
  }

  /** `new Enum(column)`: the name is the column's, the type name `enum`, the symbols parsed from `COLUMN_TYPE`. */
  method NewEnum(column: Catalog.Column) returns (r: Result<Type, MappingError>)
    ensures r == EnumOf(column)
    ensures r.Success? ==> r.value.Enum? && r.value.enumName == column.name
  {
    if column.columnType.None? {
      return Failure(MissingColumnType(column.name));
    }
    var raw := RawSymbols(column.columnType.value);
    var symbols := new string[|raw|](i requires 0 <= i < |raw| => raw[i]);
    NormaliseSymbols(symbols);
    assert symbols[..] == EnumSymbols(column.columnType.value);
    r := Success(Enum(column.name, symbols[..]));
  }

  // ---------------------------------------------------------------------------
  // Properties of the parse

  /** No symbol keeps a quote or a parenthesis. */
  lemma SymbolsHaveNoQuotesOrParentheses(columnType: string)
    ensures forall k :: 0 <= k < |EnumSymbols(columnType)| ==>
      var s := EnumSymbols(columnType)[k]; '\'' !in s && '(' !in s && ')' !in s
  {
    var afterKeywords := ReplaceFirst(ReplaceFirst(columnType, "enum", ""), "ENUM", "");
    var noClose := RemoveChar(afterKeywords, ')');
    ReplaceCharChars(afterKeywords, ')', "");
    ReplaceCharChars(noClose, '(', "");
    var stripped := Stripped(columnType);
    assert '(' !in stripped && ')' !in stripped;
    SplitParts(stripped, ',');
    var raw := RawSymbols(columnType);
    forall k | 0 <= k < |raw|
      ensures '\'' !in NormaliseSymbol(raw[k]) && '(' !in NormaliseSymbol(raw[k]) && ')' !in NormaliseSymbol(raw[k])
    {
      TrimChars(raw[k]);
      ReplaceCharChars(Trim(raw[k]), '\'', "");
    }
  }

  /** There are never more symbols than commas plus one: `split` drops trailing empty pieces. */
  lemma SymbolCountBound(columnType: string)
    ensures |EnumSymbols(columnType)| <= Count(Stripped(columnType), ',') + 1
  {
    SplitParts(Stripped(columnType), ',');
  }

  /** One quoted symbol with optional padding on either side of the quotes. */
  function Quoted(symbol: string, left: string, right: string): string
  {
    left + "'" + symbol + "'" + right
  }

  /** The pieces of a list of quoted, padded symbols. */
  function QuotedList(symbols: seq<string>, left: seq<string>, right: seq<string>): (r: seq<string>)
    requires |left| == |symbols| && |right| == |symbols|
    ensures |r| == |symbols|
  {
    seq(|symbols|, i requires 0 <= i < |symbols| => Quoted(symbols[i], left[i], right[i]))
  }

  /** A symbol that survives the parse: no quote, comma or parenthesis inside. */
  predicate PlainSymbol(symbol: string)
  {
    '\'' !in symbol && ',' !in symbol && '(' !in symbol && ')' !in symbol
  }

  /** Padding `trim()` removes. */
  predicate Padding(pad: string)
  {
    forall k :: 0 <= k < |pad| ==> IsTrimmed(pad[k])
  }

  /** Each padded, quoted piece normalises to its symbol, whatever the padding. */
  lemma NormaliseQuoted(symbol: string, left: string, right: string)
    requires '\'' !in symbol && Padding(left) && Padding(right)
    ensures NormaliseSymbol(Quoted(symbol, left, right)) == symbol
  {
    var core := "'" + symbol + "'";
    assert Quoted(symbol, left, right) == left + core + right;
    TrimPadded(left, core, right);
    ReplaceCharAppend("'" + symbol, "'", '\'', "");
    ReplaceCharAppend("'", symbol, '\'', "");
    ReplaceCharAbsent(symbol, '\'', "");
    assert RemoveChar("'", '\'') == "";
  }

  lemma {:induction false} JoinChars(xs: seq<string>, sep: string, x: char)
    requires x in Join(xs, sep)
    ensures x in sep || exists k :: 0 <= k < |xs| && x in xs[k]
  {
    if |xs| > 1 {
      var rest := Join(xs[1..], sep);
      assert Join(xs, sep) == xs[0] + sep + rest;
      if x !in xs[0] && x !in sep {
        assert x in rest;
        JoinChars(xs[1..], sep, x);
        var k :| 0 <= k < |xs| - 1 && x in xs[1..][k];
        assert x in xs[k + 1];
      }
    }
  }

  /**
   * Once the keyword and the parentheses are gone, a comma-separated list of
   * quoted, padded plain symbols parses back to exactly those symbols, in
   * order.
   */
  lemma SymbolsOfStrippedList(columnType: string, symbols: seq<string>, left: seq<string>, right: seq<string>)
    requires |symbols| > 0 && |left| == |symbols| && |right| == |symbols|
    requires forall i :: 0 <= i < |symbols| ==> PlainSymbol(symbols[i]) && Padding(left[i]) && Padding(right[i])
    requires Stripped(columnType) == Join(QuotedList(symbols, left, right), ",")
    ensures EnumSymbols(columnType) == symbols
  {
    var pieces := QuotedList(symbols, left, right);
    PiecesHaveNoSeparators(symbols, left, right);
    var last := |pieces| - 1;
    assert pieces[last] == left[last] + "'" + symbols[last] + "'" + right[last];
    assert "," == [','];
    SplitJoin(pieces, ',');
    assert RawSymbols(columnType) == pieces;
    forall i | 0 <= i < |symbols| ensures EnumSymbols(columnType)[i] == symbols[i] {
      NormaliseQuoted(symbols[i], left[i], right[i]);
    }
  }

  /** The `COLUMN_TYPE` text of a list of symbols: the keyword, then the quoted, padded symbols in parentheses. */
  function EnumColumnType(keyword: string, symbols: seq<string>, left: seq<string>, right: seq<string>): string
    requires |left| == |symbols| && |right| == |symbols|
  {
    keyword + "(" + Join(QuotedList(symbols, left, right), ",") + ")"
  }

  lemma PiecesHaveNoSeparators(symbols: seq<string>, left: seq<string>, right: seq<string>)
    requires |left| == |symbols| && |right| == |symbols|
    requires forall i :: 0 <= i < |symbols| ==> PlainSymbol(symbols[i]) && Padding(left[i]) && Padding(right[i])
    ensures forall k :: 0 <= k < |symbols| ==> PlainPiece(QuotedList(symbols, left, right)[k])
  {
    var pieces := QuotedList(symbols, left, right);
    forall k | 0 <= k < |pieces| ensures PlainPiece(pieces[k]) {
      assert pieces[k] == left[k] + "'" + symbols[k] + "'" + right[k];
      forall j | 0 <= j < |left[k]| ensures left[k][j] !in "(),"  {
        assert IsTrimmed(left[k][j]);
      }
      forall j | 0 <= j < |right[k]| ensures right[k][j] !in "()," {
        assert IsTrimmed(right[k][j]);
      }
    }
  }

  /** A piece without parentheses or commas. */
  predicate PlainPiece(piece: string)
  {
    '(' !in piece && ')' !in piece && ',' !in piece
  }

  /** A word without parentheses never straddles the parentheses around a text that lacks it. */
  lemma NotInParenthesised(text: string, word: string)
    requires |word| > 0 && '(' !in word && ')' !in word
    requires !Contains(text, word)
    ensures !Contains("(" + text + ")", word)
  {
    var wrapped := "(" + text + ")";
    forall i | 0 <= i && i + |word| <= |wrapped| ensures !OccursAt(wrapped, word, i) {
      if i == 0 {
        assert wrapped[i..i + |word|][0] == '(';
      } else if i + |word| == |wrapped| {
        assert wrapped[i..i + |word|][|word| - 1] == ')';
      } else {
        assert wrapped[i..i + |word|] == text[i - 1..i - 1 + |word|];
        assert !OccursAt(text, word, i - 1);
      }
    }
  }

  /**
   * Deleting the first `enum` and then the first `ENUM` removes exactly the
   * keyword in front of a list. The list may repeat that keyword, since its
   * first occurrence is the one in front, but must not hold the other one.
   */
  lemma StripKeyword(keyword: string, list: string)
    requires keyword == "enum" || keyword == "ENUM"
    requires keyword == "enum" ==> !Contains(list, "ENUM")
    requires keyword == "ENUM" ==> !Contains(list, "enum")
    ensures ReplaceFirst(ReplaceFirst(keyword + list, "enum", ""), "ENUM", "") == list
  {
    var columnType := keyword + list;
    assert columnType[0..4] == keyword;
    assert OccursAt(columnType, keyword, 0);
    if keyword == "enum" {
      assert ReplaceFirst(columnType, "enum", "") == columnType[4..] == list;
    } else {
      forall i | 0 <= i && i + 4 <= |columnType| ensures !OccursAt(columnType, "enum", i) {
        if i < 4 {
          assert columnType[i..i + 4][0] == columnType[i] != 'e';
        } else {
          assert columnType[i..i + 4] == list[i - 4..i];
          assert !OccursAt(list, "enum", i - 4);
        }
      }
      assert ReplaceFirst(columnType, "enum", "") == columnType;
      assert ReplaceFirst(columnType, "ENUM", "") == columnType[4..] == list;
    }
  }

  /** Deleting every `)` and then every `(` unwraps a parenthesised text that has neither inside. */
  lemma StripParentheses(text: string)
    requires '(' !in text && ')' !in text
    ensures RemoveChar(RemoveChar("(" + text + ")", ')'), '(') == text
  {
    var prefix := "(" + text;
    assert ')' !in prefix;
    ReplaceCharAppend(prefix, ")", ')', "");
    ReplaceCharAbsent(prefix, ')', "");
    assert RemoveChar(")", ')') == "" + RemoveChar("", ')') == "";
    assert RemoveChar(prefix + ")", ')') == prefix;
    ReplaceCharAppend("(", text, '(', "");
    ReplaceCharAbsent(text, '(', "");
    assert RemoveChar("(", '(') == "" + RemoveChar("", '(') == "";
    assert "(" + text + ")" == prefix + ")";
  }

  /**
   * The round trip: the symbols written as `enum('a', 'b', ...)` or
   * `ENUM(...)`, with any padding around the quotes, parse back to exactly
   * themselves in order, provided the other keyword does not occur in the
   * list; the keyword itself may occur again inside a symbol.
   */
  lemma EnumRoundTrip(keyword: string, symbols: seq<string>, left: seq<string>, right: seq<string>)
    requires keyword == "enum" || keyword == "ENUM"
    requires |symbols| > 0 && |left| == |symbols| && |right| == |symbols|
    requires forall i :: 0 <= i < |symbols| ==> PlainSymbol(symbols[i]) && Padding(left[i]) && Padding(right[i])
    requires keyword == "enum" ==> !Contains(Join(QuotedList(symbols, left, right), ","), "ENUM")
    requires keyword == "ENUM" ==> !Contains(Join(QuotedList(symbols, left, right), ","), "enum")
    ensures EnumSymbols(EnumColumnType(keyword, symbols, left, right)) == symbols
  {
    var pieces := QuotedList(symbols, left, right);
    var text := Join(pieces, ",");
    var list := "(" + text + ")";
    var columnType := EnumColumnType(keyword, symbols, left, right);
    assert columnType == keyword + list;
    if keyword == "enum" {
      NotInParenthesised(text, "ENUM");
    } else {
      NotInParenthesised(text, "enum");
    }
    StripKeyword(keyword, list);
    PiecesHaveNoSeparators(symbols, left, right);
    assert ')' !in text && '(' !in text by {
      if ')' in text {
        JoinChars(pieces, ",", ')');
      }
      if '(' in text {
        JoinChars(pieces, ",", '(');
      }
    }
    StripParentheses(text);
    assert Stripped(columnType) == text;
    SymbolsOfStrippedList(columnType, symbols, left, right);
  }

  /** A word whose first character is absent from a text does not occur in it. */
  lemma AbsentFirstChar(text: string, word: string)
    requires |word| > 0 && word[0] !in text
    ensures !Contains(text, word)
  {
    forall i | 0 <= i && i + |word| <= |text| ensures !OccursAt(text, word, i) {
      assert text[i..i + |word|][0] == text[i];
    }
  }

  /**
   * Spaces inside the quotes are kept: `trim()` runs before the quotes are
   * deleted, so `enum(' a')` has the symbol " a" with a leading space.
   */
  lemma QuotedSpaceSurvives(columnType: string)
    requires columnType == "enum(' a')"
    ensures EnumSymbols(columnType) == [" a"]
  {
    var core := "' a'";
    assert core == "'" + " a" + "'";
    assert "enum" + "(" + core + ")" == columnType;
    AbsentFirstChar(core, "ENUM");
    SingleSymbol("enum", " a");
  }

  /**
   * Only the first `enum` is removed: once the keyword in front has gone, a
   * later `enum` inside a symbol survives, so `enum('enumx')` has the symbol
   * "enumx".
   */
  lemma LaterKeywordSurvives(columnType: string)
    requires columnType == "enum('enumx')"
    ensures EnumSymbols(columnType) == ["enumx"]
  {
    var core := "'enumx'";
    assert core == "'" + "enumx" + "'";
    assert "enum" + "(" + core + ")" == columnType;
    AbsentFirstChar(core, "ENUM");
    SingleSymbol("enum", "enumx");
  }

  /** A single quoted symbol without padding parses to itself. */
  lemma SingleSymbol(keyword: string, symbol: string)
    requires keyword == "enum" || keyword == "ENUM"
    requires PlainSymbol(symbol)
    requires keyword == "enum" ==> !Contains("'" + symbol + "'", "ENUM")
    requires keyword == "ENUM" ==> !Contains("'" + symbol + "'", "enum")
    ensures EnumSymbols(keyword + "(" + ("'" + symbol + "'") + ")") == [symbol]
  {
    var pads := [""];
    var pieces := QuotedList([symbol], pads, pads);
    assert pieces[0] == "" + "'" + symbol + "'" + "";
    assert Join(pieces, ",") == "'" + symbol + "'";
    assert Padding("");
    EnumRoundTrip(keyword, [symbol], pads, pads);
  }

  /** The lower-case keyword at the front of `enum('ENUM_A','b')` is the first one. */
  lemma StripLowerKeyword(columnType: string, rest: string)
    requires columnType == "enum('ENUM_A','b')" && rest == "('ENUM_A','b')"
    ensures ReplaceFirst(columnType, "enum", "") == rest
  {
    assert columnType[0..4] == "enum";
    assert IndexOf(columnType, "enum") == 0;
    assert columnType[4..] == rest;
  }

  /** The first upper-case `ENUM` of `('ENUM_A','b')` starts at index 2, inside the first symbol. */
  lemma StripUpperKeyword(list: string, rest: string)
    requires list == "('ENUM_A','b')" && rest == "('_A','b')"
    ensures ReplaceFirst(list, "ENUM", "") == rest
  {
    assert list[0] != 'E' && list[1] != 'E';
    assert !OccursAt(list, "ENUM", 0) && !OccursAt(list, "ENUM", 1);
    assert list[2..6] == "ENUM";
    assert IndexOfFrom(list, "ENUM", 2) == 2;
    assert IndexOf(list, "ENUM") == 2;
    assert list[..2] + list[6..] == rest;
  }

  /**
   * Only the first `enum` and the first `ENUM` are removed, wherever they
   * are: after the lower-case keyword has gone, an upper-case `ENUM` inside a
   * symbol is deleted from it.
   */
  lemma KeywordInsideSymbolIsRemoved(columnType: string)
    requires columnType == "enum('ENUM_A','b')"
    ensures EnumSymbols(columnType) == ["_A", "b"]
  {
    var symbols, pads := ["_A", "b"], ["", ""];
    StrippedSample(columnType, "'_A','b'");
    JoinedSample();
    assert PlainSymbol(symbols[0]) && PlainSymbol(symbols[1]);
    SymbolsOfStrippedList(columnType, symbols, pads, pads);
  }

  lemma StrippedSample(columnType: string, text: string)
    requires columnType == "enum('ENUM_A','b')" && text == "'_A','b'"
    ensures Stripped(columnType) == text
  {
    var afterLower := "('ENUM_A','b')";
    StripLowerKeyword(columnType, afterLower);
    StripUpperKeyword(afterLower, "(" + text + ")");
    assert '(' !in text && ')' !in text;
    StrippedOfParenthesised(columnType, text);
  }

  /** Once the keywords are gone, what remains in parentheses is the stripped list. */
  lemma StrippedOfParenthesised(columnType: string, text: string)
    requires ReplaceFirst(ReplaceFirst(columnType, "enum", ""), "ENUM", "") == "(" + text + ")"
    requires '(' !in text && ')' !in text
    ensures Stripped(columnType) == text
  {
    StripParentheses(text);
  }

  lemma JoinedSample()
    ensures Join(QuotedList(["_A", "b"], ["", ""], ["", ""]), ",") == "'_A','b'"
  {
    var pieces := QuotedList(["_A", "b"], ["", ""], ["", ""]);
    assert pieces[0] == "'_A'" && pieces[1] == "'b'";
    assert pieces == ["'_A'", "'b'"];
    assert pieces[1..] == ["'b'"];
    assert Join(pieces[1..], ",") == "'b'";
  }
}
