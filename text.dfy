/**
 * The .NET string operations the configuration helper relies on: Char.IsWhiteSpace,
 * String.IsNullOrWhiteSpace, Trim, Split(char), Split(char, 2), Replace(oldValue, ""),
 * Contains, and the decimal rendering and parsing of a 64-bit integer (Int64.ToString
 * and Int64.Parse). A `string` is a sequence of Unicode scalar values, not of UTF-16
 * code units: a character outside the Basic Multilingual Plane is one `char` here.
 */
module Text {
  import opened Results

  /** A .NET string reference, which may be null. */
  datatype NullableString = Null | Str(value: string)

  /** How string interpolation renders a string reference: null becomes the empty text. */
  function Render(s: NullableString): string
  {
    match s
    case Null => ""
    case Str(v) => v
  }

  // ---------------------------------------------------------------------------
  // Whitespace and trimming

  /** Char.IsWhiteSpace: the Unicode space, line and paragraph separators and
      the control characters U+0009-U+000D and U+0085. */
  predicate IsWhiteSpace(c: char)
  {
    || ('\t' <= c <= '\r')
    || c == ' '
    || c == '\U{85}'
    || c == '\U{A0}'
    || c == '\U{1680}'
    || ('\U{2000}' <= c <= '\U{200A}')
    || c == '\U{2028}'
    || c == '\U{2029}'
    || c == '\U{202F}'
    || c == '\U{205F}'
    || c == '\U{3000}'
  }

  /** The white space that Int64.Parse skips around a number (NumberStyles.Integer). */
  predicate IsNumberWhite(c: char)
  {
    ('\t' <= c <= '\r') || c == ' '
  }

  predicate AllSatisfy(s: string, p: char -> bool)
  {
    forall i :: 0 <= i < |s| ==> p(s[i])
  }

  /** String.IsNullOrWhiteSpace. */
  predicate IsNullOrWhiteSpace(s: NullableString)
  {
    match s
    case Null => true
    case Str(v) => AllSatisfy(v, IsWhiteSpace)
  }

  /** Drops the longest prefix of characters satisfying `white`. */
  function TrimStartBy(s: string, white: char -> bool): string
  {
    if s != [] && white(s[0]) then TrimStartBy(s[1..], white) else s
  }

  /** What TrimStartBy drops is white, and what it keeps is a suffix that starts with a
      character that is not. */
  lemma {:induction false} TrimStartShape(s: string, white: char -> bool)
    ensures var r := TrimStartBy(s, white);
      && |r| <= |s| && r == s[|s| - |r|..]
      && AllSatisfy(s[..|s| - |r|], white)
      && (r == [] || !white(r[0]))
  {
    if s != [] && white(s[0]) {
      TrimStartShape(s[1..], white);
      var r := TrimStartBy(s[1..], white);
      assert s[..|s| - |r|] == [s[0]] + s[1..][..|s| - 1 - |r|];
    }
  }

  /** Drops the longest suffix of characters satisfying `white`. */
  function TrimEndBy(s: string, white: char -> bool): string
  {
    if s != [] && white(s[|s| - 1]) then TrimEndBy(s[..|s| - 1], white) else s
  }

  /** What TrimEndBy drops is white, and what it keeps is a prefix that ends with a
      character that is not. */
  lemma {:induction false} TrimEndShape(s: string, white: char -> bool)
    ensures var r := TrimEndBy(s, white);
      && |r| <= |s| && r == s[..|r|]
      && AllSatisfy(s[|r|..], white)
      && (r == [] || !white(r[|r| - 1]))
  {
    if s != [] && white(s[|s| - 1]) {
      TrimEndShape(s[..|s| - 1], white);
      var r := TrimEndBy(s[..|s| - 1], white);
      assert s[|r|..] == s[..|s| - 1][|r|..] + [s[|s| - 1]];
    }
  }

  /** `r` is the slice of `s` at offset `i`, with only white space around it. */
  predicate TrimmedAt(s: string, i: nat, r: string, white: char -> bool)
  {
    && i + |r| <= |s|
    && r == s[i..i + |r|]
    && AllSatisfy(s[..i], white)
    && AllSatisfy(s[i + |r|..], white)
  }

  /** Drops white space at both ends. */
  function TrimBy(s: string, white: char -> bool): (r: string)
    ensures r == [] || (!white(r[0]) && !white(r[|r| - 1]))
  {
    var t := TrimStartBy(s, white);
    TrimStartShape(s, white);
    TrimEndShape(t, white);
    TrimEndBy(t, white)
  }

  /** TrimBy keeps one slice of its input and drops only white space around it. */
  lemma TrimShape(s: string, white: char -> bool)
    ensures exists i: nat :: TrimmedAt(s, i, TrimBy(s, white), white)
  {
    var t := TrimStartBy(s, white);
    var r := TrimEndBy(t, white);
    TrimStartShape(s, white);
    TrimEndShape(t, white);
    assert s[|s| - |t| + |r|..] == t[|r|..];
    assert r == TrimBy(s, white);
    assert TrimmedAt(s, |s| - |t|, r, white);
  }

  /** String.Trim(). */
  function Trim(s: string): (r: string)
    ensures r == [] || (!IsWhiteSpace(r[0]) && !IsWhiteSpace(r[|r| - 1]))
  {
    TrimBy(s, IsWhiteSpace)
  }

  /** The blank check and Trim agree: a string is blank exactly when trimming empties it. */
  lemma TrimEmptyIffBlank(s: string)
    ensures Trim(s) == [] <==> IsNullOrWhiteSpace(Str(s))
  {
    var r := Trim(s);
    TrimShape(s, IsWhiteSpace);
    var i: nat :| TrimmedAt(s, i, r, IsWhiteSpace);
    if r == [] {
      assert s == s[..i] + s[i..];
      forall k | 0 <= k < |s| ensures IsWhiteSpace(s[k]) {
        if k < i { assert s[k] == s[..i][k]; } else { assert s[k] == s[i..][k - i]; }
      }
    } else {
      assert s[i] == r[0];
    }
  }

  /** A leading white-space character does not survive Trim. */
  lemma TrimSkipsLeadingSpace(x: string)
    ensures Trim([' '] + x) == Trim(x)
  {
    assert ([' '] + x)[1..] == x;
  }

  /** Text with no white space at its ends is left alone by Trim, even behind one space. */
  lemma TrimPadded(x: string)
    requires x == [] || (!IsWhiteSpace(x[0]) && !IsWhiteSpace(x[|x| - 1]))
    ensures Trim([' '] + x) == x
  {
    TrimSkipsLeadingSpace(x);
  }

  // ---------------------------------------------------------------------------
  // Splitting on one character

  /** Concatenates the pieces with `d` between consecutive ones. */
  function Join(parts: seq<string>, d: char): string
  {
    if parts == [] then []
    else if |parts| == 1 then parts[0]
    else parts[0] + [d] + Join(parts[1..], d)
  }

  /** String.Split(char): every piece between delimiters, empty pieces included. */
  function Split(s: string, d: char): (parts: seq<string>)
    ensures |parts| >= 1
    ensures forall i :: 0 <= i < |parts| ==> d !in parts[i]
    ensures Join(parts, d) == s
  {
    if s == [] then [[]]
    else
      var rest := Split(s[1..], d);
      if s[0] == d then
        assert ([[]] + rest)[1..] == rest;
        [[]] + rest
      else
        var parts := [[s[0]] + rest[0]] + rest[1..];
        assert parts[1..] == rest[1..];
        assert s == [s[0]] + s[1..];
        parts
  }

  /** Text without the delimiter is one piece. */
  lemma {:induction false} SplitWithoutDelimiter(s: string, d: char)
    requires d !in s
    ensures Split(s, d) == [s]
  {
    if s != [] {
      SplitWithoutDelimiter(s[1..], d);
      assert [s[0]] + s[1..] == s;
    }
  }

  /** Splitting at one delimiter splits both sides independently. */
  lemma {:induction false} SplitConcat(a: string, b: string, d: char)
    ensures Split(a + [d] + b, d) == Split(a, d) + Split(b, d)
  {
    var s := a + [d] + b;
    if a == [] {
      assert s[1..] == b;
    } else {
      assert s[1..] == a[1..] + [d] + b;
      SplitConcat(a[1..], b, d);
    }
  }

  /** A first piece without the delimiter splits off on its own. */
  lemma SplitCons(a: string, b: string, d: char)
    requires d !in a
    ensures Split(a + ([d] + b), d) == [a] + Split(b, d)
  {
    assert a + ([d] + b) == a + [d] + b;
    SplitConcat(a, b, d);
    SplitWithoutDelimiter(a, d);
  }

  /** A text has at least two pieces exactly when it holds the delimiter. */
  lemma SplitHasSecondPiece(s: string, d: char)
    ensures |Split(s, d)| >= 2 <==> d in s
  {
    if d in s {
      var k :| 0 <= k < |s| && s[k] == d;
      assert s == s[..k] + [d] + s[k + 1..];
      SplitConcat(s[..k], s[k + 1..], d);
    } else {
      SplitWithoutDelimiter(s, d);
    }
  }

  /** Split undoes Join when no piece holds the delimiter. */
  lemma {:induction false} SplitOfJoin(parts: seq<string>, d: char)
    requires |parts| >= 1
    requires forall i :: 0 <= i < |parts| ==> d !in parts[i]
    ensures Split(Join(parts, d), d) == parts
  {
    SplitWithoutDelimiter(parts[0], d);
    if |parts| > 1 {
      SplitOfJoin(parts[1..], d);
      SplitConcat(parts[0], Join(parts[1..], d), d);
      assert parts == [parts[0]] + parts[1..];
    }
  }

  /** String.Split(char, 2): the text before the first delimiter and everything after it,
      or the whole text as the only piece when it has no delimiter. */
  function SplitOnce(s: string, d: char): (parts: seq<string>)
    ensures 1 <= |parts| <= 2
  {
    if s == [] then [[]]
    else if s[0] == d then [[], s[1..]]
    else
      var rest := SplitOnce(s[1..], d);
      [[s[0]] + rest[0]] + rest[1..]
  }

  /** The first delimiter is the cut: later delimiters stay in the second piece. */
  lemma {:induction false} SplitOnceAtFirst(a: string, b: string, d: char)
    requires d !in a
    ensures SplitOnce(a + [d] + b, d) == [a, b]
  {
    var s := a + [d] + b;
    if a == [] {
      assert s[1..] == b;
    } else {
      assert s[0] == a[0] && s[1..] == a[1..] + [d] + b;
      SplitOnceAtFirst(a[1..], b, d);
      assert [a[0]] + a[1..] == a;
    }
  }

  /** Splitting once has a second piece exactly when splitting at every delimiter does. */
  lemma {:induction false} SplitOnceHasSecondPiece(s: string, d: char)
    ensures |SplitOnce(s, d)| == 2 <==> d in s
  {
    if s != [] && s[0] != d {
      SplitOnceHasSecondPiece(s[1..], d);
      assert s == [s[0]] + s[1..];
    }
  }

  // ---------------------------------------------------------------------------
  // Substrings

  predicate OccursAt(s: string, t: string, i: nat)
  {
    i + |t| <= |s| && s[i..i + |t|] == t
  }

  /** String.Contains(string), ordinal. */
  predicate ContainsText(s: string, t: string)
  {
    exists i: nat :: i <= |s| && OccursAt(s, t, i)
  }

  lemma ContainsMiddle(a: string, t: string, b: string)
    ensures ContainsText(a + t + b, t)
  {
    assert (a + t + b)[|a|..|a| + |t|] == t;
    assert OccursAt(a + t + b, t, |a|);
  }

  /** A text contains each of its prefixes. */
  lemma ContainsPrefix(t: string, rest: string)
    ensures ContainsText(t + rest, t)
  {
    assert OccursAt(t + rest, t, 0);
  }

  /** String.Replace(pattern, ""): ordinal and left to right; text that a deletion
      brings together is not examined again. */
  function DeleteAll(s: string, pattern: string): string
    requires pattern != []
    decreases |s|
  {
    if |pattern| <= |s| && s[..|pattern|] == pattern then DeleteAll(s[|pattern|..], pattern)
    else if s == [] then []
    else [s[0]] + DeleteAll(s[1..], pattern)
  }

  /** Text that cannot start the pattern passes through DeleteAll unchanged. */
  lemma {:induction false} DeleteAllKeepsPlain(a: string, b: string, pattern: string)
    requires pattern != [] && pattern[0] !in a
    ensures DeleteAll(a + b, pattern) == a + DeleteAll(b, pattern)
  {
    if a != [] {
      var s := a + b;
      assert s[0] == a[0] && a[0] in a;
      DeleteAllKeepsFirst(s, pattern);
      assert s[1..] == a[1..] + b;
      assert pattern[0] !in a[1..] by {
        assert forall c :: c in a[1..] ==> c in a;
      }
      DeleteAllKeepsPlain(a[1..], b, pattern);
      assert a == [a[0]] + a[1..];
    } else {
      assert a + b == b;
    }
  }

  /** A first character that cannot start the pattern is kept. */
  lemma DeleteAllKeepsFirst(s: string, pattern: string)
    requires pattern != [] && s != [] && s[0] != pattern[0]
    ensures DeleteAll(s, pattern) == [s[0]] + DeleteAll(s[1..], pattern)
  {
    assert |pattern| <= |s| ==> s[..|pattern|][0] != pattern[0];
  }

  /** A deletion is done in one pass: "mmss" keeps the "ms" that the deletion forms. */
  lemma DeleteAllIsOnePass()
    ensures DeleteAll("mmss", "ms") == "ms"
  {
    assert "mmss"[1..] == "mss";
    assert "mss"[2..] == "s";
  }

  // ---------------------------------------------------------------------------
  // Decimal numbers

  const LongMin: int := -0x8000_0000_0000_0000
  const LongMax: int := 0x7FFF_FFFF_FFFF_FFFF

  predicate IsDigit(c: char)
  {
    '0' <= c <= '9'
  }

  function DigitChar(d: nat): (c: char)
    requires d < 10
    ensures IsDigit(c) && c as int - '0' as int == d
  {
    ('0' as int + d) as char
  }

  /** The value of a string of decimal digits, most significant first. */
  function DigitsValue(s: string): nat
    requires AllSatisfy(s, IsDigit)
  {
    if s == [] then 0
    else DigitsValue(s[..|s| - 1]) * 10 + (s[|s| - 1] as int - '0' as int)
  }

  /** The decimal rendering of a natural number, without leading zeros. */
  function NatToText(n: nat): string
  {
    if n < 10 then [DigitChar(n)] else NatToText(n / 10) + [DigitChar(n % 10)]
  }

  /** NatToText writes one or more digits, with no leading zero, whose value is the number. */
  lemma {:induction false} NatToTextShape(n: nat)
    ensures NatToText(n) != [] && AllSatisfy(NatToText(n), IsDigit)
    ensures n > 0 ==> NatToText(n)[0] != '0'
    ensures DigitsValue(NatToText(n)) == n
  {
    if n >= 10 {
      NatToTextShape(n / 10);
      var s := NatToText(n);
      assert s[..|s| - 1] == NatToText(n / 10);
    }
  }

  /** Int64.ToString() with the invariant culture's "-" sign. */
  function IntToText(i: int): string
  {
    if i < 0 then "-" + NatToText(-i) else NatToText(i)
  }

  datatype NumberError = FormatError | OverflowError

  /** Int64.Parse(s) with NumberStyles.Integer: optional white space around an
      optional sign and one or more ASCII digits, within the range of a long. */
  function ParseLong(s: string): (r: Result<int, NumberError>)
    ensures r.Success? ==> LongMin <= r.value <= LongMax
  {
    var t := TrimBy(s, IsNumberWhite);
    var negative := t != [] && t[0] == '-';
    var digits := if t != [] && (t[0] == '-' || t[0] == '+') then t[1..] else t;
    if digits == [] || !AllSatisfy(digits, IsDigit) then Failure(FormatError)
    else
      var v: int := if negative then -(DigitsValue(digits) as int) else DigitsValue(digits);
      if LongMin <= v <= LongMax then Success(v) else Failure(OverflowError)
  }

  /** IntToText has no character of the "ms" suffix, no comma and no colon, and starts
      and ends with a character that is not white space. */
  lemma IntToTextShape(i: int)
    ensures IntToText(i) != []
    ensures 'm' !in IntToText(i) && ',' !in IntToText(i) && ':' !in IntToText(i)
    ensures IntToText(i)[0] == '-' || IsDigit(IntToText(i)[0])
    ensures IsDigit(IntToText(i)[|IntToText(i)| - 1])
  {
    var n := if i < 0 then -i else i;
    var d := NatToText(n);
    NatToTextShape(n);
    assert forall c :: c in d ==> IsDigit(c);
    if i < 0 {
      assert IntToText(i) == ['-'] + d;
    }
  }

  /** Int64.Parse reads back what Int64.ToString writes. */
  lemma LongTextRoundTrip(i: int)
    requires LongMin <= i <= LongMax
    ensures ParseLong(IntToText(i)) == Success(i)
  {
    var s := IntToText(i);
    IntToTextShape(i);
    NatToTextShape(if i < 0 then -i else i);
    assert TrimStartBy(s, IsNumberWhite) == s;
    assert TrimEndBy(s, IsNumberWhite) == s;
    if i < 0 {
      assert s[1..] == NatToText(-i);
    }
  }
}
