/** The PHP and WordPress value coercions the controller relies on, over the
    string values that WordPress's meta, transient and request stores hold:
    the `(int)` cast, `absint`, `empty` and plain truthiness. */
module Php {

  import opened Wrappers

  /** The characters PHP skips before a leading number: space, \t, \n, \r, \v, \f. */
  predicate IsSpace(c: char) {
    c == ' ' || c == '\t' || c == '\n' || c == '\r' || c == '\U{B}' || c == '\U{C}'
  }

  predicate IsDigit(c: char) {
    '0' <= c <= '9'
  }

  function DigitValue(c: char): nat
    requires IsDigit(c)
  {
    (c as int) - ('0' as int)
  }

  /** `s` with its leading whitespace removed. */
  function SkipSpace(s: string): (t: string)
  {
    if s != [] && IsSpace(s[0]) then SkipSpace(s[1..]) else s
  }

  /** The longest run of decimal digits at the start of `s`. */
  function LeadingDigits(s: string): (d: string)
    ensures forall i :: 0 <= i < |d| ==> IsDigit(d[i])
  {
    if s != [] && IsDigit(s[0]) then [s[0]] + LeadingDigits(s[1..]) else []
  }

  /** SkipSpace drops exactly the leading whitespace: what remains is a
      suffix of `s` not starting with whitespace, and all that was dropped
      is whitespace. */
  lemma {:induction false} SkipSpaceDropsWhitespace(s: string)
    ensures var t := SkipSpace(s);
            && |t| <= |s| && t == s[|s| - |t|..]
            && (forall i :: 0 <= i < |s| - |t| ==> IsSpace(s[i]))
            && (t == [] || !IsSpace(t[0]))
  {
    if s != [] && IsSpace(s[0]) {
      var t := SkipSpace(s[1..]);
      SkipSpaceDropsWhitespace(s[1..]);
      assert SkipSpace(s) == t;
      assert s[1..][|s| - 1 - |t|..] == s[|s| - |t|..];
      forall i | 0 <= i < |s| - |t| ensures IsSpace(s[i]) {
        if i > 0 {
          assert s[i] == s[1..][i - 1];
        }
      }
    }
  }

  /** LeadingDigits is the longest run of digits that starts `s`: a prefix
      of `s` followed by a non-digit or by nothing. */
  lemma {:induction false} LeadingDigitsIsLongestRun(s: string)
    ensures var d := LeadingDigits(s);
            d <= s && (|d| < |s| ==> !IsDigit(s[|d|]))
  {
    if s != [] && IsDigit(s[0]) {
      LeadingDigitsIsLongestRun(s[1..]);
    }
  }

  /** The value of a string of decimal digits, most significant first. */
  function DecimalValue(d: string): nat
    requires forall i :: 0 <= i < |d| ==> IsDigit(d[i])
  {
    if d == [] then 0 else DecimalValue(d[..|d| - 1]) * 10 + DigitValue(d[|d| - 1])
  }

  /** PHP's `(int)` cast of a string: skip leading whitespace, read an optional
      sign and the leading decimal digits, ignore the rest; no digits give 0. */
  function IntVal(s: string): (n: int)
    ensures s == [] || (!IsSpace(s[0]) && !IsDigit(s[0]) && s[0] != '+' && s[0] != '-') ==> n == 0
    ensures s != [] && IsDigit(s[0]) ==> n >= 0
    ensures s != [] && s[0] == '-' ==> n <= 0
  {
    var t := SkipSpace(s);
    if t != [] && t[0] == '-' then 0 - DecimalValue(LeadingDigits(t[1..]))
    else if t != [] && t[0] == '+' then DecimalValue(LeadingDigits(t[1..]))
    else DecimalValue(LeadingDigits(t))
  }

  /** WordPress's `absint`: the absolute value of the `(int)` cast. */
  function AbsInt(s: string): (n: nat)
    ensures n == 0 <==> IntVal(s) == 0
    ensures n == 1 <==> IntVal(s) == 1 || IntVal(s) == -1
  {
    if IntVal(s) < 0 then -IntVal(s) else IntVal(s)
  }

  /** PHP's `empty()` applied to an entry of a request array that may be
      missing: a missing entry, `""` and `"0"` are empty. */
  predicate IsEmpty(v: Option<string>)
    ensures IsEmpty(v) <==> v == None || !IsTruthy(v.value)
  {
    v == None || v == Some("") || v == Some("0")
  }

  /** PHP truthiness of a string: everything but `""` and `"0"`. */
  predicate IsTruthy(s: string)
    ensures |s| >= 2 ==> IsTruthy(s)
    ensures |s| == 1 ==> (IsTruthy(s) <==> s[0] != '0')
  {
    s != "" && s != "0"
  }

  /** The leading number of a lone digit, or of a digit followed by a
      non-digit, is that digit. */
  lemma DecimalValueOfDigit(c: char, rest: string)
    requires IsDigit(c)
    requires rest == [] || !IsDigit(rest[0])
    ensures LeadingDigits([c] + rest) == [c]
    ensures DecimalValue([c]) == DigitValue(c)
  {
    assert ([c] + rest)[1..] == rest;
    assert LeadingDigits(rest) == [];
    assert [c][..0] == [];
  }

  /** A single digit has itself as `absint`: the flag strings "1" and "0"
      read back as 1 and 0. */
  lemma AbsIntOfDigit(c: char)
    requires IsDigit(c)
    ensures AbsInt([c]) == DigitValue(c)
  {
    assert [c] == [c] + [];
    DecimalValueOfDigit(c, []);
    assert SkipSpace([c]) == [c];
  }

  /** Leading whitespace, an explicit sign and trailing garbage do not hide
      the number: `absint(" -1px")` is 1. */
  lemma AbsIntOfSignedDigit(ws: string, sign: char, c: char, rest: string)
    requires forall i :: 0 <= i < |ws| ==> IsSpace(ws[i])
    requires sign == '+' || sign == '-'
    requires IsDigit(c)
    requires rest == [] || !IsDigit(rest[0])
    ensures AbsInt(ws + [sign, c] + rest) == DigitValue(c)
  {
    var t := [sign, c] + rest;
    assert ws + [sign, c] + rest == ws + t;
    SkipSpacePrefix(ws, t);
    assert t[1..] == [c] + rest;
    DecimalValueOfDigit(c, rest);
  }

  lemma {:induction false} SkipSpacePrefix(ws: string, t: string)
    requires forall i :: 0 <= i < |ws| ==> IsSpace(ws[i])
    requires t == [] || !IsSpace(t[0])
    ensures SkipSpace(ws + t) == t
  {
    if ws != [] {
      assert (ws + t)[1..] == ws[1..] + t;
      SkipSpacePrefix(ws[1..], t);
    }
  }
}
