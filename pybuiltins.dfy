/**
 * The Python 2 built-ins on byte strings and integers that the log-tail
 * core relies on: `int(s)` on a decimal string, `"%s" % n` on an integer,
 * `str.lower()`, `str.replace(a, b)` with one-character arguments and the
 * white space that `int()` strips. Strings are sequences of characters;
 * Python 2's byte strings are compared and lowered as ASCII.
 */
module PyBuiltins {
  import opened Wrappers

  /** The characters Python 2 calls white space: space, \t, \n, \v, \f, \r. */
  predicate IsSpace(c: char) {
    c == ' ' || 9 <= c as int <= 13
  }

  predicate IsDigit(c: char) {
    '0' <= c <= '9'
  }

  predicate AllDigits(s: string) {
    forall i :: 0 <= i < |s| ==> IsDigit(s[i])
  }

  /** A non-empty run of decimal digits. */
  predicate IsDecimal(s: string) {
    |s| > 0 && AllDigits(s)
  }

  /** `s.lstrip()`: the suffix of `s` left once its leading white space is dropped. */
  function StripLeft(s: string): (r: string)
    ensures |r| <= |s| && r == s[|s| - |r|..]
    ensures r == [] || !IsSpace(r[0])
    ensures forall i :: 0 <= i < |s| - |r| ==> IsSpace(s[i])
  {
    if |s| > 0 && IsSpace(s[0]) then StripLeft(s[1..]) else s
  }

  /** `s.rstrip()`: the prefix of `s` left once its trailing white space is dropped. */
  function StripRight(s: string): (r: string)
    ensures |r| <= |s| && r == s[..|r|]
    ensures r == [] || !IsSpace(r[|r| - 1])
    ensures forall i :: |r| <= i < |s| ==> IsSpace(s[i])
  {
    if |s| > 0 && IsSpace(s[|s| - 1]) then StripRight(s[..|s| - 1]) else s
  }

  /** `s.strip()`: `s` without its leading and trailing white space. */
  function Strip(s: string): (r: string)
    ensures |r| <= |s|
    ensures r == [] || (!IsSpace(r[0]) && !IsSpace(r[|r| - 1]))
  {
    var l := StripLeft(s);
    var r := StripRight(l);
    assert r != [] ==> r[0] == l[0];
    r
  }

  function DigitValue(c: char): nat
    requires IsDigit(c)
  {
    c as int - '0' as int
  }

  function DigitChar(d: nat): (c: char)
    requires d < 10
    ensures IsDigit(c) && DigitValue(c) == d
  {
    ('0' as int + d) as char
  }

  /** The value of a run of decimal digits, most significant first. */
  function DigitsValue(s: string): nat
    requires AllDigits(s)
  {
    if |s| == 0 then 0 else 10 * DigitsValue(s[..|s| - 1]) + DigitValue(s[|s| - 1])
  }

  /** The decimal spelling of a natural number, as `"%s" % n` writes it. */
  function FormatNat(n: nat): (r: string)
    ensures IsDecimal(r)
  {
    if n < 10 then [DigitChar(n)] else FormatNat(n / 10) + [DigitChar(n % 10)]
  }

  /** The decimal spelling of an integer, with a leading '-' when it is negative. */
  function FormatInt(n: int): (r: string)
    ensures |r| > 0
    ensures n < 0 <==> r[0] == '-'
  {
    if n < 0 then "-" + FormatNat(-n) else FormatNat(n)
  }

  /**
   * `int(s)` on a byte string, base 10: surrounding white space, an optional
   * sign and at least one digit. None stands for the ValueError Python raises
   * on anything else.
   */
  function ParseInt(s: string): Option<int> {
    ParseStripped(Strip(s))
  }

  /** The text `int()` reads once the white space is gone: an optional sign, then digits. */
  function ParseStripped(t: string): Option<int> {
    if |t| > 0 && (t[0] == '+' || t[0] == '-') then
      if IsDecimal(t[1..]) then
        var v: int := DigitsValue(t[1..]);
        Some(if t[0] == '-' then -v else v)
      else
        None
    else if IsDecimal(t) then
      Some(DigitsValue(t))
    else
      None
  }

  lemma {:induction false} DigitsValueOfFormat(n: nat)
    ensures DigitsValue(FormatNat(n)) == n
  {
    if n >= 10 {
      var s := FormatNat(n);
      assert s[..|s| - 1] == FormatNat(n / 10);
      DigitsValueOfFormat(n / 10);
    }
  }

  /** A string that neither starts nor ends with white space is its own strip. */
  lemma StripUnspaced(t: string)
    requires |t| > 0 && !IsSpace(t[0]) && !IsSpace(t[|t| - 1])
    ensures Strip(t) == t
  {
    assert StripLeft(t) == t;
  }

  /** A run of digits parses as its value. */
  lemma ParseDecimal(d: string)
    requires IsDecimal(d)
    ensures ParseInt(d) == Some(DigitsValue(d))
  {
    assert IsDigit(d[0]) && IsDigit(d[|d| - 1]);
    StripUnspaced(d);
    assert ParseStripped(d) == Some(DigitsValue(d));
  }

  /** A minus sign before a run of digits parses as the negated value. */
  lemma ParseNegatedDecimal(t: string, d: string, v: nat)
    requires IsDecimal(d) && t == "-" + d && DigitsValue(d) == v
    ensures ParseInt(t) == Some(-(v as int))
  {
    assert t[1..] == d && t[|t| - 1] == d[|d| - 1];
    StripUnspaced(t);
    assert ParseStripped(t) == Some(-(v as int));
  }

  /** `int("%s" % n) == n`: formatting an integer and parsing it back is the identity. */
  lemma ParseFormatRoundTrip(n: int)
    ensures ParseInt(FormatInt(n)) == Some(n)
  {
    if n < 0 {
      DigitsValueOfFormat(-n);
      ParseNegatedDecimal(FormatInt(n), FormatNat(-n), -n);
    } else {
      DigitsValueOfFormat(n);
      ParseDecimal(FormatNat(n));
    }
  }

  /** Not a single decimal digit. */
  predicate NoDigits(s: string) {
    forall i :: 0 <= i < |s| ==> !IsDigit(s[i])
  }

  lemma NoDigitsSlice(s: string, i: nat, j: nat)
    requires NoDigits(s) && i <= j <= |s|
    ensures NoDigits(s[i..j])
  {
    assert forall k :: 0 <= k < j - i ==> s[i..j][k] == s[i + k];
  }

  /** Text without a digit is no number, signed or not. */
  lemma ParseStrippedRejectsDigitless(t: string)
    requires NoDigits(t)
    ensures ParseStripped(t) == None
  {
    if |t| > 1 {
      assert t[1..][0] == t[1];
    }
  }

  /** A string without a single digit is never a number: int() raises ValueError on it. */
  lemma ParseRejectsDigitless(s: string)
    requires NoDigits(s)
    ensures ParseInt(s) == None
  {
    var l := StripLeft(s);
    NoDigitsSlice(s, |s| - |l|, |s|);
    assert l == s[|s| - |l|..|s|];
    var r := StripRight(l);
    NoDigitsSlice(l, 0, |r|);
    assert r == l[0..|r|];
    ParseStrippedRejectsDigitless(r);
  }

  predicate IsUpper(c: char) {
    'A' <= c <= 'Z'
  }

  /** ASCII lower-casing of one byte, as Python 2's `str.lower()` does. */
  function LowerChar(c: char): (r: char)
    ensures !IsUpper(r)
    ensures IsUpper(c) ==> r as int == c as int + 32
    ensures !IsUpper(c) ==> r == c
  {
    if IsUpper(c) then (c as int + 32) as char else c
  }

  /** `s.lower()` on a byte string. */
  function Lower(s: string): (r: string)
    ensures |r| == |s|
    ensures forall i :: 0 <= i < |s| ==> r[i] == LowerChar(s[i])
  {
    if |s| == 0 then "" else [LowerChar(s[0])] + Lower(s[1..])
  }

  /** `s.replace(from, to)` for one-character `from` and `to`. */
  function Replace(s: string, from: char, to: char): (r: string)
    ensures |r| == |s|
    ensures forall i :: 0 <= i < |s| ==> r[i] == if s[i] == from then to else s[i]
  {
    if |s| == 0 then "" else [if s[0] == from then to else s[0]] + Replace(s[1..], from, to)
  }
}
