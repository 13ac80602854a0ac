/**
 * The java.lang.String operations the generator relies on, restricted to the
 * literal patterns it actually passes: ASCII lower-casing, `equalsIgnoreCase`,
 * `indexOf`/`contains`, `replace`/`replaceAll` of one character,
 * `replaceFirst` of a literal word, `split` on one character and `trim`.
 */
module Text {

  /** `Character.toLowerCase` on the ASCII range; other characters are left alone. */
  function LowerChar(c: char): char
  {
    if 'A' <= c <= 'Z' then (c as int + 32) as char else c
  }

  /** `String.toLowerCase`, ASCII only. */
  function Lower(s: string): string
  {
    seq(|s|, i requires 0 <= i < |s| => LowerChar(s[i]))
  }

  lemma LowerIdempotent(s: string)
    ensures Lower(Lower(s)) == Lower(s)
  {
  }

  lemma LowerAppend(a: string, b: string)
    ensures Lower(a + b) == Lower(a) + Lower(b)
  {
  }

  /** `String.equalsIgnoreCase`, ASCII only. */
  predicate EqualsIgnoreCase(a: string, b: string)
  {
    Lower(a) == Lower(b)
  }

  // ---------------------------------------------------------------------------
  // Searching

  /** `p` occurs in `s` starting at index `i`. */
  predicate OccursAt(s: string, p: string, i: int)
  {
    0 <= i && i + |p| <= |s| && s[i..i + |p|] == p
  }

  /** `String.indexOf(p, from)`: the first occurrence at or after `from`, or -1. */
  function IndexOfFrom(s: string, p: string, from: nat): (r: int)
    requires from <= |s|
    ensures r == -1 || (from <= r && OccursAt(s, p, r))
    ensures forall j :: from <= j && (r == -1 || j < r) ==> !OccursAt(s, p, j)
    decreases |s| - from
  {
    if OccursAt(s, p, from) then from
    else if from == |s| then -1
    else IndexOfFrom(s, p, from + 1)
  }

  /** `String.indexOf(p)`. */
  function IndexOf(s: string, p: string): int
  {
    IndexOfFrom(s, p, 0)
  }

  /** An occurrence with none before it is the one `indexOf` finds. */
  lemma IndexOfFirst(s: string, p: string, i: int)
    requires OccursAt(s, p, i)
    requires forall j :: 0 <= j < i ==> !OccursAt(s, p, j)
    ensures IndexOf(s, p) == i
  {
  }

  /** Without an occurrence `indexOf` gives -1. */
  lemma IndexOfAbsent(s: string, p: string)
    requires forall j :: !OccursAt(s, p, j)
    ensures IndexOf(s, p) == -1
  {
  }

  /** `String.contains(p)`. */
  predicate Contains(s: string, p: string)
  {
    IndexOf(s, p) >= 0
  }

  lemma ContainsIff(s: string, p: string)
    ensures Contains(s, p) <==> exists i :: OccursAt(s, p, i)
  {
  }

  // ---------------------------------------------------------------------------
  // Replacing

  /** Every occurrence of character `c` replaced by `rep` (`replace`/`replaceAll` of a one-character literal). */
  function ReplaceChar(s: string, c: char, rep: string): (r: string)
    ensures |rep| == 0 ==> |r| <= |s|
  {
    if s == [] then [] else (if s[0] == c then rep else [s[0]]) + ReplaceChar(s[1..], c, rep)
  }

  /** Every occurrence of character `c` removed (`replace(")", "")`, `replaceAll("'", "")`). */
  function RemoveChar(s: string, c: char): string
  {
    ReplaceChar(s, c, "")
  }

  lemma {:induction false} ReplaceCharAppend(a: string, b: string, c: char, rep: string)
    ensures ReplaceChar(a + b, c, rep) == ReplaceChar(a, c, rep) + ReplaceChar(b, c, rep)
  {
    if a == [] {
      assert a + b == b;
    } else {
      assert (a + b)[1..] == a[1..] + b;
      ReplaceCharAppend(a[1..], b, c, rep);
    }
  }

  lemma {:induction false} ReplaceCharAbsent(s: string, c: char, rep: string)
    requires c !in s
    ensures ReplaceChar(s, c, rep) == s
  {
    if s != [] {
      ReplaceCharAbsent(s[1..], c, rep);
    }
  }

  /** The result of a replacement only holds characters of the input or of the replacement, and never `c` when `rep` has none. */
  lemma {:induction false} ReplaceCharChars(s: string, c: char, rep: string)
    ensures forall x :: x in ReplaceChar(s, c, rep) ==> (x in s && x != c) || x in rep
  {
    if s != [] {
      ReplaceCharChars(s[1..], c, rep);
    }
  }

  /** `String.replaceFirst(p, rep)` for a literal pattern `p`. */
  function ReplaceFirst(s: string, p: string, rep: string): string
  {
    var i := IndexOf(s, p);
    if i < 0 then s else s[..i] + rep + s[i + |p|..]
  }

  lemma ReplaceFirstChars(s: string, p: string, rep: string)
    ensures forall x :: x in ReplaceFirst(s, p, rep) ==> x in s || x in rep
  {
    var i := IndexOf(s, p);
    if i >= 0 {
      forall x | x in ReplaceFirst(s, p, rep) ensures x in s || x in rep {
        if x in s[..i] {
          var k :| 0 <= k < i && s[..i][k] == x;
          assert s[k] == x;
        } else if x in s[i + |p|..] {
          var k :| 0 <= k < |s| - i - |p| && s[i + |p|..][k] == x;
          assert s[i + |p| + k] == x;
        }
      }
    }
  }

  // ---------------------------------------------------------------------------
  // Splitting and joining

  /** Number of occurrences of `c` in `s`. */
  function Count(s: string, c: char): nat
  {
    if s == [] then 0 else (if s[0] == c then 1 else 0) + Count(s[1..], c)
  }

  /** All the pieces between occurrences of `c`, empty ones included. */
  function SplitAll(s: string, c: char): (parts: seq<string>)
    ensures |parts| == Count(s, c) + 1
  {
    if s == [] then [""]
    else
      var rest := SplitAll(s[1..], c);
      if s[0] == c then [""] + rest else [[s[0]] + rest[0]] + rest[1..]
  }

  /** Drops empty strings from the end of a list, as `String.split` does. */
  function DropTrailingEmpty(parts: seq<string>): (r: seq<string>)
    ensures |r| <= |parts| && r == parts[..|r|]
    ensures r == [] || r[|r| - 1] != ""
    ensures forall k :: |r| <= k < |parts| ==> parts[k] == ""
  {
    if parts != [] && parts[|parts| - 1] == "" then DropTrailingEmpty(parts[..|parts| - 1]) else parts
  }

  /**
   * `String.split(c)` for a one-character pattern: when `c` does not occur
   * the input comes back as the only element, otherwise the pieces between
   * occurrences with trailing empty pieces dropped.
   */
  function Split(s: string, c: char): seq<string>
  {
    if c !in s then [s] else DropTrailingEmpty(SplitAll(s, c))
  }

  lemma {:induction false} SplitAllParts(s: string, c: char)
    ensures forall k :: 0 <= k < |SplitAll(s, c)| ==> PieceOf(SplitAll(s, c)[k], s, c)
  {
    if s != [] {
      SplitAllParts(s[1..], c);
      var rest := SplitAll(s[1..], c);
      var parts := SplitAll(s, c);
      forall k | 0 <= k < |parts| ensures PieceOf(parts[k], s, c) {
        if s[0] != c && k == 0 {
          assert PieceOf(rest[0], s[1..], c);
          assert parts[0] == [s[0]] + rest[0];
        } else if s[0] != c {
          assert PieceOf(rest[k], s[1..], c);
          assert parts[k] == rest[k];
        } else if k > 0 {
          assert PieceOf(rest[k - 1], s[1..], c);
          assert parts[k] == rest[k - 1];
        } else {
          assert parts[0] == "";
        }
      }
    }
  }

  /** Every character of `piece` is a character of `s` other than `c`. */
  predicate PieceOf(piece: string, s: string, c: char)
  {
    forall x :: x in piece ==> x in s && x != c
  }

  lemma SplitParts(s: string, c: char)
    ensures |Split(s, c)| <= Count(s, c) + 1
    ensures forall k :: 0 <= k < |Split(s, c)| ==> forall x :: x in Split(s, c)[k] ==> x in s
  {
    SplitAllParts(s, c);
    if c in s {
      var all := SplitAll(s, c);
      var r := DropTrailingEmpty(all);
      forall k | 0 <= k < |r| ensures forall x :: x in r[k] ==> x in s {
        assert r[k] == all[k];
        assert PieceOf(all[k], s, c);
      }
    }
  }

  /** The elements of `xs` separated by `sep`. */
  function Join(xs: seq<string>, sep: string): string
  {
    if xs == [] then "" else if |xs| == 1 then xs[0] else xs[0] + sep + Join(xs[1..], sep)
  }

  lemma {:induction false} JoinSnoc(xs: seq<string>, y: string, sep: string)
    requires xs != []
    ensures Join(xs + [y], sep) == Join(xs, sep) + sep + y
  {
    if |xs| == 1 {
      assert xs + [y] == [xs[0], y];
    } else {
      assert (xs + [y])[1..] == xs[1..] + [y];
      JoinSnoc(xs[1..], y, sep);
    }
  }

  /** Splitting on `c` undoes joining with `c` when no element holds `c`. */
  lemma {:induction false} SplitAllJoin(xs: seq<string>, c: char)
    requires xs != []
    requires forall k :: 0 <= k < |xs| ==> c !in xs[k]
    ensures SplitAll(Join(xs, [c]), c) == xs
  {
    if |xs| == 1 {
      SplitAllNoSeparator(xs[0], c);
    } else {
      SplitAllJoin(xs[1..], c);
      var tail := [c] + Join(xs[1..], [c]);
      assert Join(xs, [c]) == xs[0] + tail;
      SplitAllPrefix(xs[0], tail, c);
      assert tail[1..] == Join(xs[1..], [c]);
      assert SplitAll(tail, c) == [""] + xs[1..];
      assert xs[0] + "" == xs[0];
      assert [xs[0]] + xs[1..] == xs;
    }
  }

  /** `split` undoes joining with `c` when no element holds `c` and the last one is not empty. */
  lemma SplitJoin(xs: seq<string>, c: char)
    requires xs != [] && xs[|xs| - 1] != ""
    requires forall k :: 0 <= k < |xs| ==> c !in xs[k]
    ensures Split(Join(xs, [c]), c) == xs
  {
    if |xs| == 1 {
      assert Join(xs, [c]) == xs[0];
    } else {
      assert Join(xs, [c]) == xs[0] + [c] + Join(xs[1..], [c]);
      assert c in Join(xs, [c]);
      SplitAllJoin(xs, c);
    }
  }

  lemma {:induction false} SplitAllNoSeparator(s: string, c: char)
    requires c !in s
    ensures SplitAll(s, c) == [s]
  {
    if s != [] {
      assert forall x :: x in s[1..] ==> x in s;
      SplitAllNoSeparator(s[1..], c);
      assert [s[0]] + s[1..] == s;
    }
  }

  /** A separator-free prefix glues onto the first piece of what follows. */
  lemma {:induction false} SplitAllPrefix(a: string, b: string, c: char)
    requires c !in a
    ensures SplitAll(a + b, c) == [a + SplitAll(b, c)[0]] + SplitAll(b, c)[1..]
  {
    if a != [] {
      assert (a + b)[1..] == a[1..] + b;
      assert (a + b)[0] == a[0] && a[0] in a;
      assert forall x :: x in a[1..] ==> x in a;
      SplitAllPrefix(a[1..], b, c);
      assert a + SplitAll(b, c)[0] == [a[0]] + (a[1..] + SplitAll(b, c)[0]);
    } else {
      assert a + b == b;
      assert a + SplitAll(b, c)[0] == SplitAll(b, c)[0];
      assert SplitAll(b, c) == [SplitAll(b, c)[0]] + SplitAll(b, c)[1..];
    }
  }

  // ---------------------------------------------------------------------------
  // Whitespace

  /** The characters `String.trim` strips: every code point up to and including the space. */
  predicate IsTrimmed(c: char)
  {
    c <= ' '
  }

  function TrimStart(s: string): (r: string)
    ensures |r| <= |s|
  {
    if s != [] && IsTrimmed(s[0]) then TrimStart(s[1..]) else s
  }

  function TrimEnd(s: string): (r: string)
    ensures |r| <= |s|
  {
    if s != [] && IsTrimmed(s[|s| - 1]) then TrimEnd(s[..|s| - 1]) else s
  }

  /** `String.trim`. */
  function Trim(s: string): (r: string)
    ensures |r| <= |s|
  {
    TrimEnd(TrimStart(s))
  }

  lemma {:induction false} TrimStartChars(s: string)
    ensures forall x :: x in TrimStart(s) ==> x in s
  {
    if s != [] && IsTrimmed(s[0]) {
      TrimStartChars(s[1..]);
    }
  }

  lemma {:induction false} TrimEndChars(s: string)
    ensures forall x :: x in TrimEnd(s) ==> x in s
  {
    if s != [] && IsTrimmed(s[|s| - 1]) {
      TrimEndChars(s[..|s| - 1]);
    }
  }

  lemma TrimChars(s: string)
    ensures forall x :: x in Trim(s) ==> x in s
  {
    TrimStartChars(s);
    TrimEndChars(TrimStart(s));
  }

  /** Trimming a string padded on both sides by trimmable characters around a core with non-trimmable ends gives the core. */
  lemma {:induction false} TrimPadded(left: string, core: string, right: string)
    requires forall k :: 0 <= k < |left| ==> IsTrimmed(left[k])
    requires forall k :: 0 <= k < |right| ==> IsTrimmed(right[k])
    requires core != [] && !IsTrimmed(core[0]) && !IsTrimmed(core[|core| - 1])
    ensures Trim(left + core + right) == core
  {
    TrimStartPadded(left, core + right);
    assert left + core + right == left + (core + right);
    TrimEndPadded(core, right);
  }

  lemma {:induction false} TrimStartPadded(left: string, rest: string)
    requires forall k :: 0 <= k < |left| ==> IsTrimmed(left[k])
    requires rest != [] && !IsTrimmed(rest[0])
    ensures TrimStart(left + rest) == rest
  {
    if left == [] {
      assert left + rest == rest;
    } else {
      assert (left + rest)[1..] == left[1..] + rest;
      TrimStartPadded(left[1..], rest);
    }
  }

  lemma {:induction false} TrimEndPadded(core: string, right: string)
    requires forall k :: 0 <= k < |right| ==> IsTrimmed(right[k])
    requires core != [] && !IsTrimmed(core[|core| - 1])
    ensures TrimEnd(core + right) == core
  {
    if right == [] {
      assert core + right == core;
    } else {
      var shorter := core + right[..|right| - 1];
      assert (core + right)[..|core + right| - 1] == shorter;
      TrimEndPadded(core, right[..|right| - 1]);
    }
  }

  /**
   * `Character.isWhitespace`: the ASCII controls TAB to CR and FS to US, the
   * space, and the Unicode space, line and paragraph separators except the
   * non-breaking ones (U+00A0, U+2007, U+202F).
   */
  predicate IsWhitespace(c: char)
  {
    c == ' ' || c == '\t' || c == '\n' || c == '\U{0B}' || c == '\U{0C}' || c == '\r'
    || ('\U{1C}' <= c <= '\U{1F}')
    || c == '\U{1680}'
    || ('\U{2000}' <= c <= '\U{2006}') || ('\U{2008}' <= c <= '\U{200A}')
    || c == '\U{2028}' || c == '\U{2029}' || c == '\U{205F}' || c == '\U{3000}'
  }

  /**
   * `StringUtils.isNotBlank` applied to a present string: some character is
   * not whitespace.
   */
  function HasNonWhitespace(s: string): (r: bool)
    ensures r <==> exists i :: 0 <= i < |s| && !IsWhitespace(s[i])
  {
    if s == [] then false
    else if !IsWhitespace(s[0]) then true
    else
      var r := HasNonWhitespace(s[1..]);
      assert r ==> exists i :: 0 <= i < |s| - 1 && !IsWhitespace(s[1..][i]);
      assert (exists i :: 0 <= i < |s| && !IsWhitespace(s[i])) ==> exists i :: 0 <= i < |s| - 1 && !IsWhitespace(s[1..][i]);
      r
  }

  // ---------------------------------------------------------------------------
  // Numbers

  function DigitChar(d: nat): char
    requires d < 10
  {
    "0123456789"[d]
  }

  function NatToString(n: nat): (r: string)
    ensures r != [] && forall k :: 0 <= k < |r| ==> '0' <= r[k] <= '9'
  {
    if n < 10 then [DigitChar(n)] else NatToString(n / 10) + [DigitChar(n % 10)]
  }

  /** `Integer.toString`, as `%s` renders a Java `int`. */
  function IntToString(n: int): string
  {
    if n < 0 then "-" + NatToString(-n) else NatToString(n)
  }
}
