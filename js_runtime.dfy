/**
  The pieces of the JavaScript runtime that the three services lean on:
  String.prototype.trim, String.prototype.split on line breaks, parseInt with
  radix 10, the decimal text of integer-valued numbers, and an opaque bundle for
  the floating-point operations (Math.sqrt, Math.atan2, Math.cos, Math.sin,
  Number.prototype.toFixed, Number-to-String of other numbers, parseFloat).
 */
module JsRuntime {

  datatype Option<T> = None | Some(value: T)

  /** Characters removed by String.prototype.trim (ECMAScript WhiteSpace and LineTerminator). */
  predicate IsWhitespace(c: char) {
    c == '\t' || c == '\n' || c == '\U{B}' || c == '\U{C}' || c == '\r' || c == ' ' ||
    c == '\U{A0}' || c == '\U{1680}' || ('\U{2000}' <= c <= '\U{200A}') ||
    c == '\U{2028}' || c == '\U{2029}' || c == '\U{202F}' || c == '\U{205F}' ||
    c == '\U{3000}' || c == '\U{FEFF}'
  }

  predicate IsLineBreak(c: char) {
    c == '\n' || c == '\r'
  }

  /** A non-empty string with no whitespace in it: it survives trim unchanged and holds no line break. */
  predicate Printable(s: string) {
    |s| > 0 && forall k :: 0 <= k < |s| ==> !IsWhitespace(s[k])
  }

  function TrimStart(s: string): string {
    if |s| > 0 && IsWhitespace(s[0]) then TrimStart(s[1..]) else s
  }

  function TrimEnd(s: string): string {
    if |s| > 0 && IsWhitespace(s[|s| - 1]) then TrimEnd(s[..|s| - 1]) else s
  }

  /** Trimming the front removes exactly the leading run of whitespace. */
  lemma {:induction false} TrimStartShape(s: string)
    ensures var r := TrimStart(s);
            |r| <= |s| && r == s[|s| - |r|..] && (r == [] || !IsWhitespace(r[0])) &&
            forall k :: 0 <= k < |s| - |r| ==> IsWhitespace(s[k])
  {
    if |s| > 0 && IsWhitespace(s[0]) {
      TrimStartShape(s[1..]);
      var r := TrimStart(s[1..]);
      assert s[1..][|s| - 1 - |r|..] == s[|s| - |r|..];
      forall k | 0 <= k < |s| - |r| ensures IsWhitespace(s[k]) {
        if k > 0 {
          assert s[k] == s[1..][k - 1];
        }
      }
    }
  }

  /** Trimming the back removes exactly the trailing run of whitespace. */
  lemma {:induction false} TrimEndShape(s: string)
    ensures var r := TrimEnd(s);
            |r| <= |s| && r == s[..|r|] && (r == [] || !IsWhitespace(r[|r| - 1])) &&
            forall k :: |r| <= k < |s| ==> IsWhitespace(s[k])
  {
    if |s| > 0 && IsWhitespace(s[|s| - 1]) {
      var t := s[..|s| - 1];
      TrimEndShape(t);
      var r := TrimEnd(t);
      assert t[..|r|] == s[..|r|];
      forall k | |r| <= k < |s| ensures IsWhitespace(s[k]) {
        if k < |s| - 1 {
          assert s[k] == t[k];
        }
      }
    }
  }

  /** String.prototype.trim. */
  function Trim(s: string): string {
    TrimEnd(TrimStart(s))
  }

  lemma TrimPrintable(s: string)
    requires Printable(s)
    ensures Trim(s) == s
  {
    assert TrimStart(s) == s;
  }

  lemma {:induction false} TrimOfWhitespaceFree(s: string)
    requires forall k :: 0 <= k < |s| ==> !IsWhitespace(s[k])
    ensures Trim(s) == s
  {
    if |s| > 0 {
      assert !IsWhitespace(s[0]);
      assert !IsWhitespace(s[|s| - 1]);
    }
  }

  /** s.split(/\r\n|\r|\n/): CR LF is one break, a lone CR or LF is one break. */
  function SplitLines(s: string): (r: seq<string>)
    ensures |r| >= 1
  {
    if |s| == 0 then [""]
    else if s[0] == '\r' && |s| >= 2 && s[1] == '\n' then [""] + SplitLines(s[2..])
    else if IsLineBreak(s[0]) then [""] + SplitLines(s[1..])
    else
      var rest := SplitLines(s[1..]);
      [[s[0]] + rest[0]] + rest[1..]
  }

  lemma AppendAssoc<T>(a: seq<T>, b: seq<T>, c: seq<T>)
    ensures (a + b) + c == a + (b + c)
  {
  }

  /** A value that trim leaves as it is and that holds no line break (it may hold inner spaces). */
  predicate Settled(s: string) {
    |s| > 0 && !IsWhitespace(s[0]) && !IsWhitespace(s[|s| - 1]) && NoLineBreak(s)
  }

  lemma TrimSettled(s: string)
    requires Settled(s)
    ensures Trim(s) == s
  {
    assert TrimStart(s) == s;
  }

  lemma PrintableSettled(s: string)
    requires Printable(s)
    ensures Settled(s)
  {
  }

  /** The text made of every line followed by "\n", as the writer builds it. */
  function JoinLines(ls: seq<string>): string {
    if ls == [] then "" else ls[0] + "\n" + JoinLines(ls[1..])
  }

  predicate NoLineBreak(s: string) {
    forall k :: 0 <= k < |s| ==> !IsLineBreak(s[k])
  }

  lemma {:induction false} JoinLinesAppend(a: seq<string>, b: seq<string>)
    ensures JoinLines(a + b) == JoinLines(a) + JoinLines(b)
  {
    if a != [] {
      assert (a + b)[0] == a[0];
      assert (a + b)[1..] == a[1..] + b;
      JoinLinesAppend(a[1..], b);
    } else {
      assert a + b == b;
    }
  }

  lemma {:induction false} SplitLineThenRest(w: string, rest: string)
    requires NoLineBreak(w)
    ensures SplitLines(w + "\n" + rest) == [w] + SplitLines(rest)
  {
    if w == [] {
      assert ("" + "\n" + rest)[1..] == rest;
    } else {
      var s := w + "\n" + rest;
      assert s[0] == w[0] && !IsLineBreak(w[0]);
      assert s[1..] == w[1..] + "\n" + rest;
      SplitLineThenRest(w[1..], rest);
      assert [w[0]] + w[1..] == w;
    }
  }

  /** Splitting the joined text gives the lines back, plus the empty piece after the last "\n". */
  lemma {:induction false} SplitJoinLines(ls: seq<string>)
    requires forall k :: 0 <= k < |ls| ==> NoLineBreak(ls[k])
    ensures SplitLines(JoinLines(ls)) == ls + [""]
  {
    if ls != [] {
      SplitLineThenRest(ls[0], JoinLines(ls[1..]));
      SplitJoinLines(ls[1..]);
      assert ls == [ls[0]] + ls[1..];
    }
  }

  // ---------------------------------------------------------------------------
  // parseInt(value, 10) and the decimal text of integers

  predicate IsDigit(c: char) {
    '0' <= c <= '9'
  }

  function DigitValue(c: char): (d: nat)
    requires IsDigit(c)
    ensures d < 10
  {
    (c as int) - ('0' as int)
  }

  function DigitChar(d: nat): (c: char)
    requires d < 10
    ensures IsDigit(c) && DigitValue(c) == d
  {
    (('0' as int) + d) as char
  }

  /** Length of the longest prefix of s made of decimal digits. */
  function DigitRun(s: string): (n: nat)
    ensures n <= |s|
    ensures forall k :: 0 <= k < n ==> IsDigit(s[k])
    ensures n < |s| ==> !IsDigit(s[n])
  {
    if |s| > 0 && IsDigit(s[0]) then 1 + DigitRun(s[1..]) else 0
  }

  function DigitsValue(s: string): nat
    requires forall k :: 0 <= k < |s| ==> IsDigit(s[k])
  {
    if s == [] then 0 else DigitsValue(s[..|s| - 1]) * 10 + DigitValue(s[|s| - 1])
  }

  /**
    parseInt(s, 10): leading whitespace is skipped, an optional sign is read,
    then the longest run of digits; no digit at all gives NaN (None).
   */
  function ParseInt(s: string): Option<int> {
    var t := TrimStart(s);
    var negative := |t| > 0 && t[0] == '-';
    var body := if |t| > 0 && (t[0] == '-' || t[0] == '+') then t[1..] else t;
    var n := DigitRun(body);
    if n == 0 then None
    else
      var magnitude: int := DigitsValue(body[..n]);
      Some(if negative then -magnitude else magnitude)
  }

  function NatToString(n: nat): (s: string)
    ensures |s| > 0
    ensures forall k :: 0 <= k < |s| ==> IsDigit(s[k])
  {
    if n < 10 then [DigitChar(n)] else NatToString(n / 10) + [DigitChar(n % 10)]
  }

  /** The decimal text JavaScript gives an integer-valued number. */
  function IntToString(n: int): string {
    if n < 0 then "-" + NatToString(-n) else NatToString(n)
  }

  lemma {:induction false} NatToStringValue(n: nat)
    ensures DigitsValue(NatToString(n)) == n
  {
    if n >= 10 {
      var s := NatToString(n);
      assert s[..|s| - 1] == NatToString(n / 10);
      NatToStringValue(n / 10);
    }
  }

  lemma DigitsPrintable(s: string)
    requires |s| > 0 && forall k :: 0 <= k < |s| ==> IsDigit(s[k])
    ensures Printable(s)
  {
  }

  lemma IntToStringPrintable(n: int)
    ensures Printable(IntToString(n))
  {
    var d := NatToString(if n < 0 then -n else n);
    DigitsPrintable(d);
  }

  /** parseInt reads back the decimal text of every integer. */
  lemma ParseIntOfIntToString(n: int)
    ensures ParseInt(IntToString(n)) == Some(n)
  {
    var m: nat := if n < 0 then -n else n;
    var d := NatToString(m);
    var s := IntToString(n);
    IntToStringPrintable(n);
    assert TrimStart(s) == s;
    var body := if n < 0 then s[1..] else s;
    assert body == d;
    assert DigitRun(d) == |d|;
    assert d[..|d|] == d;
    NatToStringValue(m);
  }

  // ---------------------------------------------------------------------------
  // Floating point, kept opaque

  /**
    The floating-point operations the services call, as uninterpreted functions:
    Math.sqrt, Math.atan2, Math.cos, Math.sin, x.toFixed(digits), the text
    `${x}` of a number, and parseFloat.
   */
  datatype Numerics = Numerics(
    sqrt: real -> real,
    atan2: (real, real) -> real,
    cos: real -> real,
    sin: real -> real,
    toFixed: (real, nat) -> string,
    show: real -> string,
    parseFloat: string -> real)

  /** Math.PI: the double nearest to pi, 884279719003555 / 2^48. */
  const PI: real := 884279719003555.0 / 281474976710656.0

  /** Math.atan2 returns an angle in [-pi, pi] (the ends are reached with signed zeros). */
  ghost predicate Atan2Bounded(js: Numerics) {
    forall y: real, x: real :: -PI <= js.atan2(y, x) <= PI
  }

  /** Math.sqrt of a non-negative number is its non-negative square root. */
  ghost predicate SqrtExact(js: Numerics) {
    forall a: real :: a >= 0.0 ==> js.sqrt(a) >= 0.0 && js.sqrt(a) * js.sqrt(a) == a
  }

  /** Every text the runtime gives a number is non-empty and holds no whitespace. */
  ghost predicate ShowPrintable(js: Numerics) {
    forall x: real :: Printable(js.show(x))
  }
}
