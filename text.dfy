// The JavaScript string built-ins the core relies on, restricted to ASCII:
// character classes of the regular expressions (`\d`, `[A-Z]`), `parseInt`
// on a digit run, `parseFloat` on a run of `[\d.]`, `toUpperCase`,
// `toLowerCase`, `includes` and `startsWith`.

module Text {
  import opened Prelude

  predicate IsDigit(c: char) { '0' <= c <= '9' }
  predicate IsUpper(c: char) { 'A' <= c <= 'Z' }
  predicate IsLower(c: char) { 'a' <= c <= 'z' }

  predicate AllDigits(s: string) { forall i :: 0 <= i < |s| ==> IsDigit(s[i]) }
  predicate AllUpper(s: string) { forall i :: 0 <= i < |s| ==> IsUpper(s[i]) }

  /** `[\d.]` */
  predicate IsDigitOrDot(c: char) { IsDigit(c) || c == '.' }

  function DigitVal(c: char): nat
    requires IsDigit(c)
  {
    (c as int - '0' as int) as nat
  }

  function DigitChar(d: nat): (c: char)
    requires d < 10
    ensures IsDigit(c) && DigitVal(c) == d
  {
    ('0' as int + d) as char
  }

  /** `parseInt` of a string of decimal digits. */
  function DigitsValue(s: string): nat
    requires AllDigits(s)
  {
    if s == [] then 0 else DigitsValue(s[..|s| - 1]) * 10 + DigitVal(s[|s| - 1])
  }

  function Pow10(n: nat): (r: nat)
    ensures r >= 1
  {
    if n == 0 then 1 else 10 * Pow10(n - 1)
  }

  /** Number of leading characters of `s` that are digits. */
  function DigitPrefixLen(s: string): (n: nat)
    ensures n <= |s|
    ensures AllDigits(s[..n])
    ensures n < |s| ==> !IsDigit(s[n])
  {
    if s == [] || !IsDigit(s[0]) then 0
    else
      var n := 1 + DigitPrefixLen(s[1..]);
      assert s[..n] == [s[0]] + s[1..][..n - 1];
      n
  }

  /** Index of the first '.' in `s`, or |s| when there is none. */
  function DotIndex(s: string): (i: nat)
    ensures i <= |s|
    ensures i < |s| ==> s[i] == '.'
    ensures forall j :: 0 <= j < i ==> s[j] != '.'
  {
    if s == [] then 0
    else if s[0] == '.' then 0
    else 1 + DotIndex(s[1..])
  }

  /**
   * `parseFloat` of a non-empty run of `[\d.]`: the digits before the first
   * dot, then the digits up to the next dot; None stands for NaN (no digit
   * on either side of the first dot).
   */
  function ParseDecimal(s: string): (r: Option<real>)
    requires forall i :: 0 <= i < |s| ==> IsDigitOrDot(s[i])
    ensures r.None? <==> (DotIndex(s) == 0 && (|s| <= 1 || !IsDigit(s[1])))
    ensures r.Some? ==> r.value >= 0.0
  {
    var i := DotIndex(s);
    var intPart := s[..i];
    var rest := if i < |s| then s[i + 1..] else [];
    var f := DigitPrefixLen(rest);
    assert AllDigits(intPart) by {
      forall j | 0 <= j < i ensures IsDigit(intPart[j]) {
        assert IsDigitOrDot(s[j]) && s[j] != '.';
      }
    }
    if |intPart| == 0 && f == 0 then None
    else Some(DigitsValue(intPart) as real + DigitsValue(rest[..f]) as real / Pow10(f) as real)
  }

  lemma {:induction false} DotIndexOfDigits(s: string)
    requires AllDigits(s)
    ensures DotIndex(s) == |s|
  {
    if s != [] {
      DotIndexOfDigits(s[1..]);
    }
  }

  /** On a plain digit string `parseFloat` agrees with `parseInt`. */
  lemma ParseDecimalOfDigits(s: string)
    requires s != [] && AllDigits(s)
    ensures ParseDecimal(s) == Some(DigitsValue(s) as real)
  {
    DotIndexOfDigits(s);
    assert s[..|s|] == s;
  }

  lemma {:induction false} DigitPrefixLenOfDigits(s: string)
    requires AllDigits(s)
    ensures DigitPrefixLen(s) == |s|
  {
    if s != [] {
      DigitPrefixLenOfDigits(s[1..]);
    }
  }

  /**
   * `parseInt(s)` on a string without leading blanks: an optional sign, then
   * the leading decimal digits; None stands for NaN (no digit after the sign).
   */
  function ParseInt(s: string): (r: Option<int>)
    ensures s != [] && AllDigits(s) ==> r == Some(DigitsValue(s))
    ensures r.None? <==> DigitPrefixLen(if s != [] && (s[0] == '-' || s[0] == '+') then s[1..] else s) == 0
  {
    var body := if s != [] && (s[0] == '-' || s[0] == '+') then s[1..] else s;
    var n := DigitPrefixLen(body);
    if n == 0 then None
    else
      assert s != [] && AllDigits(s) ==> body == s && n == |s| && body[..n] == s by {
        if s != [] && AllDigits(s) { DigitPrefixLenOfDigits(s); }
      }
      Some(if s != [] && s[0] == '-' then -(DigitsValue(body[..n]) as int) else DigitsValue(body[..n]))
  }

  /** `s.slice(a, b)` for non-negative bounds: both are clipped to the length. */
  function Slice(s: string, a: nat, b: nat): (r: string)
    ensures a <= b <= |s| ==> r == s[a..b]
    ensures |r| <= |s|
  {
    var lo := MinI(a, |s|);
    var hi := MaxI(lo, MinI(b, |s|));
    s[lo..hi]
  }

  function UpperChar(c: char): char
  {
    if IsLower(c) then (c as int - 32) as char else c
  }

  function LowerChar(c: char): char
  {
    if IsUpper(c) then (c as int + 32) as char else c
  }

  /** `toUpperCase` on ASCII text. */
  function ToUpper(s: string): (r: string)
    ensures |r| == |s|
    ensures forall i :: 0 <= i < |s| ==> r[i] == UpperChar(s[i])
  {
    if s == [] then [] else [UpperChar(s[0])] + ToUpper(s[1..])
  }

  /** `toLowerCase` on ASCII text. */
  function ToLower(s: string): (r: string)
    ensures |r| == |s|
    ensures forall i :: 0 <= i < |s| ==> r[i] == LowerChar(s[i])
  {
    if s == [] then [] else [LowerChar(s[0])] + ToLower(s[1..])
  }

  predicate StartsWith(s: string, prefix: string)
  {
    |prefix| <= |s| && s[..|prefix|] == prefix
  }

  predicate OccursAt(s: string, sub: string, i: int)
  {
    0 <= i <= |s| - |sub| && s[i..i + |sub|] == sub
  }

  /** `s.includes(sub)` */
  predicate Contains(s: string, sub: string)
  {
    exists i :: 0 <= i <= |s| && OccursAt(s, sub, i)
  }
}
