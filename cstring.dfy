/** The part of the C library the argument scanners rely on: `atoi`. */
module CString {

  /** `isspace` in the C locale: blank, tab, newline, vertical tab, form feed, carriage return. */
  predicate IsSpace(c: char) {
    c == ' ' || (9 <= c as int <= 13)
  }

  predicate IsDigit(c: char) {
    '0' <= c <= '9'
  }

  predicate AllDigits(s: string) {
    forall k :: 0 <= k < |s| ==> IsDigit(s[k])
  }

  /** Drops the leading white space, as `atoi` does before it reads a number. */
  function SkipSpace(s: string): (t: string)
    ensures |t| <= |s| && t == s[|s| - |t|..]
    ensures |t| > 0 ==> !IsSpace(t[0])
  {
    if |s| > 0 && IsSpace(s[0]) then SkipSpace(s[1..]) else s
  }

  /** Length of the longest prefix of `s` made of decimal digits. */
  function DigitRun(s: string): (n: nat)
    ensures n <= |s| && AllDigits(s[..n])
    ensures n < |s| ==> !IsDigit(s[n])
  {
    if |s| > 0 && IsDigit(s[0]) then
      var n := 1 + DigitRun(s[1..]);
      assert s[..n] == [s[0]] + s[1..][..n - 1];
      n
    else 0
  }

  /** The number an all-digit string spells, read most significant digit first. */
  function DigitsValue(s: string): nat
    requires AllDigits(s)
  {
    if |s| == 0 then 0
    else 10 * DigitsValue(s[..|s| - 1]) + (s[|s| - 1] as int - '0' as int)
  }

  /**
   * `atoi`: optional white space, an optional sign, then the longest run of
   * digits; a string without digits reads as 0. The C function's behaviour on
   * overflow is undefined; here the value is unbounded.
   */
  function Atoi(s: string): int {
    var t := SkipSpace(s);
    if |t| > 0 && (t[0] == '-' || t[0] == '+') then
      var magnitude: int := DigitsValue(t[1..][..DigitRun(t[1..])]);
      if t[0] == '-' then -magnitude else magnitude
    else
      DigitsValue(t[..DigitRun(t)])
  }

  /** The decimal spelling of a natural number, without leading zeros. */
  function Decimal(n: nat): (s: string)
    ensures |s| > 0 && AllDigits(s)
  {
    var d := ['0' + (n % 10) as char];
    if n < 10 then d else Decimal(n / 10) + d
  }

  lemma {:induction false} DecimalValue(n: nat)
    ensures DigitsValue(Decimal(n)) == n
  {
    var s := Decimal(n);
    if n >= 10 {
      DecimalValue(n / 10);
      assert s[..|s| - 1] == Decimal(n / 10);
    }
  }

  lemma AllDigitsRun(s: string)
    requires AllDigits(s)
    ensures DigitRun(s) == |s|
  {
  }

  /** `atoi` reads back every decimal numeral, with or without a minus sign. */
  lemma AtoiDecimal(n: nat)
    ensures Atoi(Decimal(n)) == n
    ensures Atoi("-" + Decimal(n)) == -(n as int)
  {
    var s := Decimal(n);
    DecimalValue(n);
    AllDigitsRun(s);
    assert s[..|s|] == s;
    assert !IsSpace(s[0]) && s[0] != '-' && s[0] != '+';
    assert SkipSpace(s) == s;
    var m := "-" + s;
    assert !IsSpace(m[0]);
    assert SkipSpace(m) == m;
    assert m[1..] == s;
  }
}
