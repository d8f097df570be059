/**
 * The string operations of JavaScript that the source relies on, written out:
 * `split` and `join` with a one-character separator, `trim`, the decimal form
 * of an integer in a template literal, and a decimal `parseInt`.
 */
module Text {
  import opened Wrappers

  /** `xs.join(sep)`: the pieces in order with one separator between neighbours. */
  function Join(xs: seq<string>, sep: char): string
  {
    if |xs| == 0 then ""
    else if |xs| == 1 then xs[0]
    else xs[0] + [sep] + Join(xs[1..], sep)
  }

  /** `s.split(sep)`: at least one piece, and no piece holds the separator. */
  function Split(s: string, sep: char): (r: seq<string>)
    ensures |r| >= 1
    ensures forall i :: 0 <= i < |r| ==> sep !in r[i]
  {
    if s == [] then [""]
    else
      var rest := Split(s[1..], sep);
      if s[0] == sep then [""] + rest
      else [[s[0]] + rest[0]] + rest[1..]
  }

  /** The first piece of a split is a prefix of the text, ending at the first separator or at the end. */
  lemma {:induction false} SplitFirstPrefix(s: string, sep: char)
    ensures Split(s, sep)[0] <= s
    ensures |Split(s, sep)[0]| == |s| || s[|Split(s, sep)[0]|] == sep
  {
    if s != [] && s[0] != sep {
      SplitFirstPrefix(s[1..], sep);
      assert s == [s[0]] + s[1..];
    }
  }

  /**
   * A text with a separator splits into at least two pieces, and the first
   * two, with the separator between them, open the text, followed by another
   * separator or by the end.
   */
  lemma SplitFirstTwo(s: string, sep: char)
    requires sep in s
    ensures |Split(s, sep)| >= 2
    ensures Split(s, sep)[0] + [sep] + Split(s, sep)[1] <= s
    ensures var n := |Split(s, sep)[0]| + 1 + |Split(s, sep)[1]|;
      n == |s| || s[n] == sep
  {
    var a := Split(s, sep)[0];
    SplitFirstPrefix(s, sep);
    assert |a| < |s|;
    var rest := s[|a| + 1..];
    assert s == a + [sep] + rest;
    SplitAppend(a, rest, sep);
    SplitFirstPrefix(rest, sep);
  }

  lemma JoinPrepend(c: string, xs: seq<string>, sep: char)
    requires |xs| >= 1
    ensures Join([c + xs[0]] + xs[1..], sep) == c + Join(xs, sep)
  {
    var ys := [c + xs[0]] + xs[1..];
    assert ys[1..] == xs[1..];
    if |xs| > 1 {
      calc {
        Join(ys, sep);
        ys[0] + [sep] + Join(ys[1..], sep);
        c + xs[0] + [sep] + Join(xs[1..], sep);
        c + Join(xs, sep);
      }
    }
  }

  /** Joining the pieces of a split gives back the original text. */
  lemma {:induction false} JoinSplit(s: string, sep: char)
    ensures Join(Split(s, sep), sep) == s
  {
    if s != [] {
      var rest := Split(s[1..], sep);
      JoinSplit(s[1..], sep);
      if s[0] == sep {
        assert ([""] + rest)[1..] == rest;
        assert Join([""] + rest, sep) == "" + [sep] + Join(rest, sep);
        assert s == [s[0]] + s[1..];
      } else {
        JoinPrepend([s[0]], rest, sep);
        assert s == [s[0]] + s[1..];
      }
    }
  }

  lemma {:induction false} SplitNoSeparator(a: string, sep: char)
    requires sep !in a
    ensures Split(a, sep) == [a]
  {
    if a != [] {
      SplitNoSeparator(a[1..], sep);
      assert a == [a[0]] + a[1..];
    }
  }

  lemma {:induction false} SplitAppend(a: string, rest: string, sep: char)
    requires sep !in a
    ensures Split(a + [sep] + rest, sep) == [a] + Split(rest, sep)
  {
    var s := a + [sep] + rest;
    if a == [] {
      assert s[1..] == rest;
    } else {
      assert s[1..] == a[1..] + [sep] + rest;
      SplitAppend(a[1..], rest, sep);
      assert a == [a[0]] + a[1..];
    }
  }

  /** Splitting a join gives back the pieces, as long as no piece holds the separator. */
  lemma {:induction false} SplitJoin(xs: seq<string>, sep: char)
    requires |xs| >= 1
    requires forall i :: 0 <= i < |xs| ==> sep !in xs[i]
    ensures Split(Join(xs, sep), sep) == xs
  {
    if |xs| == 1 {
      SplitNoSeparator(xs[0], sep);
    } else {
      SplitAppend(xs[0], Join(xs[1..], sep), sep);
      SplitJoin(xs[1..], sep);
      assert xs == [xs[0]] + xs[1..];
    }
  }

  /** `t.includes(s)`. */
  predicate Contains(t: string, s: string)
  {
    exists k | 0 <= k <= |t| - |s| :: OccursAt(t, s, k)
  }

  predicate OccursAt(t: string, s: string, k: int)
  {
    0 <= k <= |t| - |s| && t[k..k + |s|] == s
  }

  lemma ContainsWithin(a: string, s: string, b: string)
    ensures Contains(a + s + b, s)
  {
    var t := a + s + b;
    assert OccursAt(t, s, |a|);
  }

  lemma ContainsStart(s: string, b: string)
    ensures Contains(s + b, s)
  {
    assert OccursAt(s + b, s, 0);
  }

  lemma ContainsInSuffix(a: string, b: string, s: string)
    requires Contains(b, s)
    ensures Contains(a + b, s)
  {
    var k :| 0 <= k <= |b| - |s| && OccursAt(b, s, k);
    assert (a + b)[|a| + k..|a| + k + |s|] == b[k..k + |s|];
    assert OccursAt(a + b, s, |a| + k);
  }

  // ---------------------------------------------------------------------
  // Whitespace and trim

  /**
   * The characters `trim` and `parseInt` skip: ECMAScript's WhiteSpace
   * (tab, vertical tab, form feed, space, no-break space, byte order mark and
   * the other space separators) and LineTerminator (LF, CR, LS, PS).
   */
  predicate IsJsWhitespace(c: char)
  {
    c == '\t' || c == '\n' || c == '\U{000B}' || c == '\U{000C}' || c == '\r' ||
    c == ' ' || c == '\U{00A0}' || c == '\U{1680}' ||
    ('\U{2000}' <= c <= '\U{200A}') || c == '\U{2028}' || c == '\U{2029}' ||
    c == '\U{202F}' || c == '\U{205F}' || c == '\U{3000}' || c == '\U{FEFF}'
  }

  /** `s.trimStart()`: the suffix of `s` left once leading whitespace is gone. */
  function TrimStart(s: string): (r: string)
    ensures |r| <= |s| && r == s[|s| - |r|..]
    ensures forall i :: 0 <= i < |s| - |r| ==> IsJsWhitespace(s[i])
    ensures r == [] || !IsJsWhitespace(r[0])
  {
    if s != [] && IsJsWhitespace(s[0]) then TrimStart(s[1..]) else s
  }

  /** `s.trimEnd()`: the prefix of `s` left once trailing whitespace is gone. */
  function TrimEnd(s: string): (r: string)
    ensures |r| <= |s| && r == s[..|r|]
    ensures forall i :: |r| <= i < |s| ==> IsJsWhitespace(s[i])
    ensures r == [] || !IsJsWhitespace(r[|r| - 1])
  {
    if s != [] && IsJsWhitespace(s[|s| - 1]) then TrimEnd(s[..|s| - 1]) else s
  }

  /** `s.trim()`. */
  function Trim(s: string): string
  {
    TrimEnd(TrimStart(s))
  }

  /** The bounds of what trim keeps: whitespace before `i` and from `j` on. */
  lemma TrimBounds(s: string) returns (i: nat, j: nat)
    ensures i <= j <= |s| && Trim(s) == s[i..j]
    ensures forall k :: 0 <= k < i ==> IsJsWhitespace(s[k])
    ensures forall k :: j <= k < |s| ==> IsJsWhitespace(s[k])
  {
    var t := TrimStart(s);
    var e := TrimEnd(t);
    i := |s| - |t|;
    j := i + |e|;
    assert t == s[i..];
    assert e == t[..|e|];
    assert s[i..j] == t[..|e|];
    forall k | j <= k < |s|
      ensures IsJsWhitespace(s[k])
    {
      assert s[k] == t[k - i];
      assert |e| <= k - i < |t|;
    }
  }

  /** Trim leaves no whitespace at either end. */
  lemma TrimEnds(s: string)
    ensures Trim(s) == [] || (!IsJsWhitespace(Trim(s)[0]) && !IsJsWhitespace(Trim(s)[|Trim(s)| - 1]))
  {
    var t := TrimStart(s);
    var e := TrimEnd(t);
    if e != [] {
      assert e[0] == t[0];
    }
  }

  /** Trim removes only surrounding whitespace and leaves none at either end. */
  lemma TrimShape(s: string)
    ensures exists i, j :: (0 <= i <= j <= |s| && Trim(s) == s[i..j] &&
      (forall k :: 0 <= k < i ==> IsJsWhitespace(s[k])) &&
      (forall k :: j <= k < |s| ==> IsJsWhitespace(s[k])))
    ensures Trim(s) == [] || (!IsJsWhitespace(Trim(s)[0]) && !IsJsWhitespace(Trim(s)[|Trim(s)| - 1]))
  {
    var i, j := TrimBounds(s);
    TrimEnds(s);
  }

  /** Trim adds no character: everything in the trimmed text was in the text. */
  lemma TrimWithin(s: string)
    ensures forall c :: c in Trim(s) ==> c in s
  {
    var i, j := TrimBounds(s);
    forall c | c in Trim(s)
      ensures c in s
    {
      var k :| 0 <= k < |Trim(s)| && Trim(s)[k] == c;
      assert s[i + k] == c;
    }
  }

  /** Trimming twice is trimming once. */
  lemma TrimIdempotent(s: string)
    ensures Trim(Trim(s)) == Trim(s)
  {
    var r := Trim(s);
    TrimShape(s);
    if r != [] {
      assert TrimStart(r) == r;
      assert TrimEnd(r) == r;
    }
  }

  // ---------------------------------------------------------------------
  // Decimal numbers

  predicate IsDigit(c: char)
  {
    '0' <= c <= '9'
  }

  predicate AllDigits(s: string)
  {
    forall i :: 0 <= i < |s| ==> IsDigit(s[i])
  }

  function DigitChar(d: nat): (c: char)
    requires d < 10
    ensures IsDigit(c)
  {
    ['0', '1', '2', '3', '4', '5', '6', '7', '8', '9'][d]
  }

  function DigitValue(c: char): (d: nat)
    requires IsDigit(c)
    ensures d < 10
  {
    (c as int - '0' as int) as nat
  }

  /** The decimal digits of `n`, most significant first, with no leading zero. */
  function NatToString(n: nat): (r: string)
    ensures |r| >= 1 && AllDigits(r)
    ensures r[0] == '0' ==> n == 0
  {
    if n < 10 then [DigitChar(n)] else NatToString(n / 10) + [DigitChar(n % 10)]
  }

  /** How a JavaScript integer is written inside a template literal. */
  function IntToString(n: int): string
  {
    if n < 0 then "-" + NatToString(-n) else NatToString(n)
  }

  /** The number a string of decimal digits denotes. */
  function DigitsValue(d: string): nat
    requires AllDigits(d)
  {
    if d == [] then 0 else DigitsValue(d[..|d| - 1]) * 10 + DigitValue(d[|d| - 1])
  }

  /** The longest prefix of `s` made of decimal digits. */
  function LeadingDigits(s: string): (r: string)
    ensures |r| <= |s| && r == s[..|r|] && AllDigits(r)
    ensures |r| < |s| ==> !IsDigit(s[|r|])
  {
    if s != [] && IsDigit(s[0]) then [s[0]] + LeadingDigits(s[1..]) else []
  }

  /**
   * `parseInt(s)` for decimal text: leading whitespace is skipped, one sign is
   * read, then the longest run of digits; no digit at all is `NaN`, here `None`.
   */
  function ParseInt(s: string): Option<int>
  {
    var t := TrimStart(s);
    var signed := |t| > 0 && (t[0] == '-' || t[0] == '+');
    var digits := LeadingDigits(if signed then t[1..] else t);
    if digits == [] then None
    else
      var value: int := DigitsValue(digits);
      if signed && t[0] == '-' then Some(-value) else Some(value)
  }

  lemma {:induction false} DigitsOfNat(n: nat)
    ensures DigitsValue(NatToString(n)) == n
  {
    var r := NatToString(n);
    if n < 10 {
      assert r[..0] == [];
      assert DigitValue(DigitChar(n)) == n;
    } else {
      DigitsOfNat(n / 10);
      assert r[..|r| - 1] == NatToString(n / 10);
      assert DigitValue(DigitChar(n % 10)) == n % 10;
    }
  }

  lemma AllLeadingDigits(s: string)
    requires AllDigits(s)
    ensures LeadingDigits(s) == s
  {
  }

  /** `parseInt` reads back the decimal form of every integer. */
  lemma ParseIntOfIntToString(n: int)
    ensures ParseInt(IntToString(n)) == Some(n)
  {
    var s := IntToString(n);
    var m: nat := if n < 0 then -n else n;
    var digits := NatToString(m);
    assert TrimStart(s) == s;
    AllLeadingDigits(digits);
    DigitsOfNat(m);
    if n < 0 {
      assert s[1..] == digits;
    } else {
      assert !(s[0] == '-' || s[0] == '+');
    }
  }
}
