/**
 * ASCII text helpers: the case mapping that turns a field name into the name
 * of its environment variable, case-insensitive comparison, and decimal
 * integer text.
 */
module Ascii {
  import opened Wrappers

  predicate IsLowerLetter(c: char) { 'a' <= c <= 'z' }

  predicate IsUpperLetter(c: char) { 'A' <= c <= 'Z' }

  predicate IsDigit(c: char) { '0' <= c <= '9' }

  /** Upper-case one character; characters other than `a`..`z` are kept. */
  function ToUpper(c: char): char
  {
    if IsLowerLetter(c) then (c as int - 32) as char else c
  }

  /** Lower-case one character; characters other than `A`..`Z` are kept. */
  function ToLower(c: char): char
  {
    if IsUpperLetter(c) then (c as int + 32) as char else c
  }

  /** `s.upper()` for ASCII text. */
  function Upper(s: string): (u: string)
    ensures |u| == |s|
    ensures forall i :: 0 <= i < |s| ==> u[i] == ToUpper(s[i])
    ensures forall i :: 0 <= i < |s| ==> !IsLowerLetter(u[i])
  {
    seq(|s|, i requires 0 <= i < |s| => ToUpper(s[i]))
  }

  /** `s.lower()` for ASCII text. */
  function Lower(s: string): (l: string)
    ensures |l| == |s|
    ensures forall i :: 0 <= i < |s| ==> l[i] == ToLower(s[i])
    ensures forall i :: 0 <= i < |s| ==> !IsUpperLetter(l[i])
  {
    seq(|s|, i requires 0 <= i < |s| => ToLower(s[i]))
  }

  /** Two texts that are equal up to ASCII letter case. */
  predicate EqualsIgnoreCase(a: string, b: string)
  {
    Lower(a) == Lower(b)
  }

  predicate AllDigits(s: string)
  {
    forall i :: 0 <= i < |s| ==> IsDigit(s[i])
  }

  /** The number written by a run of decimal digits, most significant first. */
  function DigitsValue(s: string): nat
    requires AllDigits(s)
  {
    if s == [] then 0 else DigitsValue(s[..|s| - 1]) * 10 + (s[|s| - 1] as int - '0' as int)
  }

  /** The shortest decimal text of a natural number. */
  function Decimal(n: nat): (s: string)
    ensures |s| > 0 && AllDigits(s)
    ensures |s| > 1 ==> s[0] != '0'
  {
    (if n < 10 then "" else Decimal(n / 10)) + [('0' as int + n % 10) as char]
  }

  /**
   * The longest text the validation library reads as an integer; longer
   * integer text is refused (its `int_parsing_size` error).
   */
  const MaxIntegerTextLength := 4300

  /**
   * Integer text: an optional sign followed by at least one decimal digit,
   * and no longer than MaxIntegerTextLength.
   */
  predicate IsIntegerText(s: string)
  {
    && |s| <= MaxIntegerTextLength
    && if |s| > 0 && (s[0] == '-' || s[0] == '+') then |s| > 1 && AllDigits(s[1..])
       else |s| > 0 && AllDigits(s)
  }

  /** The integer written by `s`, or None when `s` is not integer text. */
  function ParseInteger(s: string): (r: Option<int>)
    ensures r.Some? <==> IsIntegerText(s)
  {
    if |s| > MaxIntegerTextLength then None
    else if |s| > 1 && s[0] == '-' && AllDigits(s[1..]) then Some(0 - DigitsValue(s[1..]) as int)
    else if |s| > 1 && s[0] == '+' && AllDigits(s[1..]) then Some(DigitsValue(s[1..]))
    else if |s| > 0 && s[0] != '-' && s[0] != '+' && AllDigits(s) then Some(DigitsValue(s))
    else None
  }

  /** Reading back the decimal text of `n` gives `n`. */
  lemma {:induction false} DecimalValue(n: nat)
    ensures DigitsValue(Decimal(n)) == n
  {
    var s := Decimal(n);
    var prefix := if n < 10 then "" else Decimal(n / 10);
    assert s == prefix + [('0' as int + n % 10) as char];
    assert s[..|s| - 1] == prefix;
    if n >= 10 {
      DecimalValue(n / 10);
    }
  }

  /**
   * Decimal text round-trips through ParseInteger, with and without a minus
   * sign, as long as it is short enough to be read at all.
   */
  lemma ParseDecimal(n: nat)
    ensures ParseInteger(Decimal(n)) == if |Decimal(n)| <= MaxIntegerTextLength then Some(n) else None
    ensures ParseInteger("-" + Decimal(n))
         == if |Decimal(n)| < MaxIntegerTextLength then Some(0 - n as int) else None
  {
    DecimalValue(n);
    var s := Decimal(n);
    assert ("-" + s)[1..] == s;
  }
}
