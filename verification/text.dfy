/**
  Decimal text: the `String(n)` of a non-negative integer and the `parseInt(s, 10)`
  that reads a setting back. The first gives the digits of generated
  work-order codes, and the model also uses it to write a work-order id into
  movement reasons; the second reads the low-stock threshold.
*/
module Text {
  import opened Wrappers

  predicate IsDigit(c: char) { '0' <= c <= '9' }

  predicate AllDigits(s: string) { forall i :: 0 <= i < |s| ==> IsDigit(s[i]) }

  function DigitValue(c: char): (d: nat)
    requires IsDigit(c)
    ensures d < 10
  {
    c as int - '0' as int
  }

  function DigitChar(d: nat): (c: char)
    requires d < 10
    ensures IsDigit(c) && DigitValue(c) == d
  {
    ('0' as int + d) as char
  }

  function Pow10(k: nat): (p: nat)
    ensures p >= 1
  {
    if k == 0 then 1 else 10 * Pow10(k - 1)
  }

  /** The value of a string of decimal digits, most significant first. */
  function ValueOf(s: string): nat
    requires AllDigits(s)
  {
    if s == [] then 0 else ValueOf(s[..|s| - 1]) * 10 + DigitValue(s[|s| - 1])
  }

  /**
    JavaScript's String(n) for a non-negative integer below 10^21 (above it
    JavaScript writes an exponent): shortest decimal, no leading zero.
  */
  function Decimal(n: nat): (s: string)
    ensures 0 < |s| && AllDigits(s)
    ensures s[0] == '0' ==> n == 0
  {
    if n < 10 then [DigitChar(n)] else Decimal(n / 10) + [DigitChar(n % 10)]
  }

  lemma {:induction false} ValueOfDecimal(n: nat)
    ensures ValueOf(Decimal(n)) == n
  {
    if n >= 10 {
      ValueOfDecimal(n / 10);
      var s := Decimal(n);
      assert s[..|s| - 1] == Decimal(n / 10);
    }
  }

  lemma {:induction false} DecimalLength(n: nat, k: nat)
    requires Pow10(k) <= n < Pow10(k + 1)
    ensures |Decimal(n)| == k + 1
  {
    if k > 0 {
      DecimalLength(n / 10, k - 1);
    }
  }

  lemma {:induction false} ValueOfBound(s: string)
    requires AllDigits(s)
    ensures ValueOf(s) < Pow10(|s|)
  {
    if s != [] {
      ValueOfBound(s[..|s| - 1]);
    }
  }

  /** Splitting off the leading digit: its weight is a power of ten. */
  lemma {:induction false} ValueOfLeading(s: string)
    requires AllDigits(s) && 0 < |s|
    ensures ValueOf(s) == DigitValue(s[0]) * Pow10(|s| - 1) + ValueOf(s[1..])
  {
    if |s| > 1 {
      var p := s[..|s| - 1];
      var r := s[1..];
      var last := DigitValue(s[|s| - 1]);
      ValueOfLeading(p);
      assert p[0] == s[0] && p[1..] == r[..|r| - 1] && r[|r| - 1] == s[|s| - 1];
      assert ValueOf(r) == ValueOf(p[1..]) * 10 + last;
      Regroup(DigitValue(s[0]), Pow10(|s| - 2), ValueOf(p[1..]), last);
    }
  }

  lemma Regroup(a: int, p: int, v: int, d: int)
    ensures (a * p + v) * 10 + d == a * (p * 10) + (v * 10 + d)
  {
  }

  /** `String(n).slice(1)` of a six-digit number is its last five digits. */
  lemma LastFiveDigits(n: nat)
    requires 100000 <= n <= 999999
    ensures |Decimal(n)| == 6
    ensures ValueOf(Decimal(n)[1..]) == n % 100000
  {
    assert Pow10(5) == 100000 && Pow10(6) == 1000000;
    DecimalLength(n, 5);
    var s := Decimal(n);
    ValueOfDecimal(n);
    ValueOfLeading(s);
    ValueOfBound(s[1..]);
  }

  /** The characters `parseInt` skips before the number (the ASCII ones). */
  predicate IsSpace(c: char) { c == ' ' || c == '\t' || c == '\n' || c == '\r' }

  function SkipSpaces(s: string): (t: string)
    ensures t == [] || !IsSpace(t[0])
    ensures |t| <= |s| && t == s[|s| - |t|..]
  {
    if s != [] && IsSpace(s[0]) then SkipSpaces(s[1..]) else s
  }

  /** The longest prefix of decimal digits. */
  function DigitPrefix(s: string): (d: string)
    ensures AllDigits(d) && d <= s
    ensures |d| < |s| ==> !IsDigit(s[|d|])
  {
    if s == [] || !IsDigit(s[0]) then [] else [s[0]] + DigitPrefix(s[1..])
  }

  /**
    `parseInt(s, 10)`: leading white space, an optional sign, then as many
    digits as follow; `None` stands for NaN (no digit at all).
  */
  function ParseInt(s: string): (r: Option<int>)
    ensures SkipSpaces(s) == [] ==> r == None
    ensures var t := SkipSpaces(s);
      t != [] && IsDigit(t[0]) ==> DigitPrefix(t) != [] && r == Some(ValueOf(DigitPrefix(t)))
  {
    var t := SkipSpaces(s);
    if t != [] && IsDigit(t[0]) then UnsignedDigits(t); ParseSigned(t) else ParseSigned(t)
  }

  /**
    NaN exactly when, after the spaces and an optional sign, no digit
    follows.
  */
  lemma ParseIntNaN(s: string)
    ensures var t := SkipSpaces(s);
      var u := if t != [] && (t[0] == '-' || t[0] == '+') then t[1..] else t;
      ParseInt(s).None? <==> u == [] || !IsDigit(u[0])
  {
  }

  /** A sign followed by digits: the digits' value, negated after `-`. */
  lemma ParseIntSigned(s: string)
    ensures var t := SkipSpaces(s);
      t != [] && (t[0] == '-' || t[0] == '+') && |t| > 1 && IsDigit(t[1]) ==>
        && DigitPrefix(t[1..]) != []
        && (t[0] == '-' ==> ParseInt(s) == Some(-(ValueOf(DigitPrefix(t[1..])) as int)))
        && (t[0] == '+' ==> ParseInt(s) == Some(ValueOf(DigitPrefix(t[1..]))))
  {
    var t := SkipSpaces(s);
    if t != [] && (t[0] == '-' || t[0] == '+') && |t| > 1 && IsDigit(t[1]) {
      assert !IsDigit(t[0]);
      UnsignedDigits(t[1..]);
    }
  }

  /** The number at the start of `t`, after an optional sign. */
  function ParseSigned(t: string): Option<int> {
    if t != [] && t[0] == '-' then
      match ParseDigits(t[1..])
      case None => None
      case Some(v) => Some(-v)
    else if t != [] && t[0] == '+' then ParseDigits(t[1..])
    else ParseDigits(t)
  }

  /** The value of the leading digits of `t`; `None` when `t` does not start with one. */
  function ParseDigits(t: string): Option<int> {
    var d := DigitPrefix(t);
    if d == [] then None else Some(ValueOf(d))
  }

  lemma {:induction false} DigitPrefixOfDigits(ds: string, rest: string)
    requires AllDigits(ds)
    requires rest == [] || !IsDigit(rest[0])
    ensures DigitPrefix(ds + rest) == ds
  {
    if ds != [] {
      assert (ds + rest)[1..] == ds[1..] + rest;
      DigitPrefixOfDigits(ds[1..], rest);
    }
  }

  /** `parseInt` reads a run of digits and stops at the first character that is not one. */
  lemma ParseIntStopsAtNonDigit(ds: string, rest: string)
    requires AllDigits(ds) && ds != []
    requires rest == [] || !IsDigit(rest[0])
    ensures ParseInt(ds + rest) == Some(ValueOf(ds))
  {
    var s := ds + rest;
    assert s[0] == ds[0];
    ParseIntAtDigit(s);
    DigitPrefixOfDigits(ds, rest);
  }

  /** Text that starts with a digit is read from its first character, without a sign. */
  lemma ParseIntAtDigit(s: string)
    requires s != [] && IsDigit(s[0])
    ensures DigitPrefix(s) != []
    ensures ParseInt(s) == Some(ValueOf(DigitPrefix(s)))
  {
    NoSpaceToSkip(s);
    UnsignedDigits(s);
  }

  lemma NoSpaceToSkip(s: string)
    requires s != [] && !IsSpace(s[0])
    ensures SkipSpaces(s) == s
  {
  }

  lemma UnsignedDigits(s: string)
    requires s != [] && IsDigit(s[0])
    ensures DigitPrefix(s) != []
    ensures ParseSigned(s) == Some(ValueOf(DigitPrefix(s)))
  {
  }

  /** Round trip: `parseInt(String(n), 10) == n`. */
  lemma ParseIntDecimal(n: nat)
    ensures ParseInt(Decimal(n)) == Some(n)
  {
    ValueOfDecimal(n);
    ParseIntStopsAtNonDigit(Decimal(n), []);
    assert Decimal(n) + [] == Decimal(n);
  }

  /** Round trip with a sign: `parseInt("-" + String(n), 10) == -n`. */
  lemma ParseIntNegative(n: nat)
    ensures ParseInt("-" + Decimal(n)) == Some(-(n as int))
  {
    var d := Decimal(n);
    var s := "-" + d;
    ValueOfDecimal(n);
    DigitPrefixOfDigits(d, []);
    assert d + [] == d;
    assert ParseDigits(d) == Some(n);
    assert s[0] == '-' && s[1..] == d;
    NoSpaceToSkip(s);
  }
}
