// JavaScript value conventions the extension's code relies on: optional
// values, truthiness of strings, the `||` fallback operator, String.trim,
// String.substring and the decimal rendering of a number.

module JsValues {

  /** A value that may be `undefined` (absent). */
  datatype Option<+T> = None | Some(value: T)

  /** A string value is truthy in JavaScript exactly when it is present and non-empty. */
  predicate Truthy(v: Option<string>)
  {
    v.Some? && v.value != ""
  }

  /** `v || fallback` where `v` is an optional string and `fallback` a string. */
  function Or(v: Option<string>, fallback: string): string
  {
    if Truthy(v) then v.value else fallback
  }

  /** `v || fallback` where both sides may be undefined. */
  function OrOpt(v: Option<string>, fallback: Option<string>): Option<string>
  {
    if Truthy(v) then v else fallback
  }

  /** `s || fallback` where `s` is a string (the empty string is falsy). */
  function OrElse(s: string, fallback: string): (r: string)
    ensures s != "" ==> r == s
    ensures s == "" ==> r == fallback
  {
    if s != "" then s else fallback
  }

  /** The characters String.prototype.trim removes: WhiteSpace and
      LineTerminator (tab, line feed, vertical tab, form feed, carriage
      return, space, no-break space, the Unicode space separators, line and
      paragraph separator, and the byte order mark). */
  predicate IsWhitespace(c: char)
  {
    '\t' <= c <= '\r' || c == ' ' || c == '\U{A0}' || c == '\U{1680}' ||
    '\U{2000}' <= c <= '\U{200A}' || c == '\U{2028}' || c == '\U{2029}' ||
    c == '\U{202F}' || c == '\U{205F}' || c == '\U{3000}' || c == '\U{FEFF}'
  }

  predicate AllWhitespace(s: string)
  {
    forall i :: 0 <= i < |s| ==> IsWhitespace(s[i])
  }

  /** Removes leading whitespace: the result is the suffix of `s` left after
      a maximal run of whitespace. */
  function TrimStart(s: string): (r: string)
    ensures |r| <= |s| && r == s[|s| - |r|..]
    ensures AllWhitespace(s[..|s| - |r|])
    ensures r == [] || !IsWhitespace(r[0])
  {
    if s != [] && IsWhitespace(s[0]) then
      var r := TrimStart(s[1..]);
      assert s[1..][|s| - 1 - |r|..] == s[|s| - |r|..];
      var tail := s[1..][..|s| - 1 - |r|];
      assert AllWhitespace(tail);
      var cut := s[..|s| - |r|];
      forall i | 0 <= i < |cut| ensures IsWhitespace(cut[i]) {
        if i > 0 {
          assert cut[i] == tail[i - 1];
        }
      }
      assert AllWhitespace(cut);
      r
    else s
  }

  /** Removes trailing whitespace: the result is the prefix of `s` left before
      a maximal run of whitespace. */
  function TrimEnd(s: string): (r: string)
    ensures |r| <= |s| && r == s[..|r|]
    ensures AllWhitespace(s[|r|..])
    ensures r == [] || !IsWhitespace(r[|r| - 1])
  {
    if s != [] && IsWhitespace(s[|s| - 1]) then
      var r := TrimEnd(s[..|s| - 1]);
      assert s[..|s| - 1][..|r|] == s[..|r|];
      var cut := s[|r|..];
      forall i | 0 <= i < |cut| ensures IsWhitespace(cut[i]) {
        if i < |cut| - 1 {
          assert cut[i] == s[..|s| - 1][|r|..][i];
        }
      }
      r
    else s
  }

  /** String.prototype.trim: `s` without its leading and trailing whitespace.
      The result neither starts nor ends with whitespace. */
  function Trim(s: string): (r: string)
    ensures |r| <= |s|
    ensures r == [] || (!IsWhitespace(r[0]) && !IsWhitespace(r[|r| - 1]))
  {
    var t := TrimStart(s);
    var r := TrimEnd(t);
    assert r != [] ==> r[0] == t[0];
    r
  }

  /** What trim keeps and what it cuts off: after the leading whitespace
      (all of it whitespace) comes the result, and after the result only
      whitespace. */
  lemma TrimSlices(s: string)
    ensures var a := |s| - |TrimStart(s)|;
            var rest := s[a..];
            |Trim(s)| <= |rest| && Trim(s) == rest[..|Trim(s)|] &&
            AllWhitespace(s[..a]) && AllWhitespace(rest[|Trim(s)|..])
  {
    assert Trim(s) == TrimEnd(TrimStart(s));
  }

  /** Two all-whitespace strings concatenate to an all-whitespace string. */
  lemma AllWhitespaceConcat(x: string, y: string)
    requires AllWhitespace(x) && AllWhitespace(y)
    ensures AllWhitespace(x + y)
  {
  }

  /** A string trims to the empty string exactly when it is all whitespace
      (this is the test `!s.trim()`). */
  lemma TrimEmptyIffAllWhitespace(s: string)
    ensures Trim(s) == "" <==> AllWhitespace(s)
  {
    TrimSlices(s);
    var r := Trim(s);
    var a := |s| - |TrimStart(s)|;
    if r == "" {
      AllWhitespaceConcat(s[..a], s[a..]);
      assert s == s[..a] + s[a..];
    } else {
      assert s[a] == r[0];
    }
  }

  /** `s.substring(0, n)` for `n >= 0`: the first min(n, |s|) characters. */
  function Prefix(s: string, n: nat): (r: string)
    ensures |r| == if n < |s| then n else |s|
    ensures r <= s
  {
    if n < |s| then s[..n] else s
  }

  function DigitChar(d: nat): char
    requires d < 10
  {
    ('0' as int + d) as char
  }

  predicate IsDigits(s: string)
  {
    forall i :: 0 <= i < |s| ==> '0' <= s[i] <= '9'
  }

  /** The number a string of decimal digits denotes. */
  function DecimalValue(s: string): nat
    requires IsDigits(s)
  {
    if s == [] then 0 else DecimalValue(s[..|s| - 1]) * 10 + (s[|s| - 1] as int - '0' as int)
  }

  /** The decimal rendering of a non-negative integer, as a template literal
      prints it. */
  function Decimal(n: nat): (s: string)
    ensures s != "" && IsDigits(s)
  {
    if n < 10 then [DigitChar(n)] else Decimal(n / 10) + [DigitChar(n % 10)]
  }

  /** The rendering denotes `n` and has no leading zero. */
  lemma {:induction false} DecimalRoundTrip(n: nat)
    ensures DecimalValue(Decimal(n)) == n
    ensures Decimal(n)[0] == '0' <==> n == 0
  {
    if n >= 10 {
      DecimalRoundTrip(n / 10);
      var d := Decimal(n / 10);
      var s := Decimal(n);
      assert s == d + [DigitChar(n % 10)];
      assert s[..|s| - 1] == d;
    }
  }
}
