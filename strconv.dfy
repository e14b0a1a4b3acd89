/**
 * Go's decimal integer conversions as the services use them: `strconv.Atoi`
 * parses the `{id}` path variable of the product service, and the `%d` verb of
 * `fmt.Sprintf` (the same digits as `strconv.Itoa`) formats the Unix time in a
 * login token.  Go's `int` is taken to be 64 bits wide.
 */
module Strconv {
  import opened Wrappers

  const MinInt64: int := -0x8000_0000_0000_0000
  const MaxInt64: int := 0x7FFF_FFFF_FFFF_FFFF

  predicate InInt64(n: int) {
    MinInt64 <= n <= MaxInt64
  }

  /** The two errors `strconv.Atoi` reports. */
  datatype NumError = ErrSyntax | ErrRange

  predicate IsDigit(c: char) {
    '0' <= c <= '9'
  }

  predicate AllDigits(s: string) {
    forall i :: 0 <= i < |s| ==> IsDigit(s[i])
  }

  /** An optional sign followed by at least one decimal digit. */
  predicate IsNumeral(s: string) {
    if |s| > 0 && (s[0] == '+' || s[0] == '-') then |s| > 1 && AllDigits(s[1..])
    else |s| > 0 && AllDigits(s)
  }

  function DigitValue(c: char): (d: nat)
    requires IsDigit(c)
    ensures d < 10
  {
    c as int - '0' as int
  }

  function DigitChar(d: nat): (c: char)
    requires d < 10
    ensures IsDigit(c) && DigitValue(c) == d
  {
    ('0' as int + d) as char
  }

  /** The value of a run of decimal digits, most significant digit first. */
  function DecimalValue(s: string): nat
    requires AllDigits(s)
  {
    if s == [] then 0 else DecimalValue(s[..|s| - 1]) * 10 + DigitValue(s[|s| - 1])
  }

  /** The decimal digits of n, with no sign and no leading zero. */
  function Digits(n: nat): (s: string)
    ensures |s| > 0 && AllDigits(s)
    ensures s[0] == '0' ==> n == 0
  {
    if n < 10 then [DigitChar(n)] else Digits(n / 10) + [DigitChar(n % 10)]
  }

  /** `strconv.Itoa(n)`, equivalently `fmt.Sprintf("%d", n)`. */
  function Itoa(n: int): string {
    if n < 0 then "-" + Digits(-n) else Digits(n)
  }

  const MaxUint64: int := 0xFFFF_FFFF_FFFF_FFFF

  /** The text after an optional leading '+' or '-'. */
  function Unsigned(s: string): (t: string)
    ensures t == s || (|s| > 0 && (s[0] == '+' || s[0] == '-') && t == s[1..])
  {
    if |s| > 0 && (s[0] == '+' || s[0] == '-') then s[1..] else s
  }

  /** The longest run of digits that s starts with. */
  function LeadingDigits(s: string): (p: string)
    ensures AllDigits(p) && p <= s
    ensures |p| < |s| ==> !IsDigit(s[|p|])
  {
    if s == [] || !IsDigit(s[0]) then [] else [s[0]] + LeadingDigits(s[1..])
  }

  /** The signed value a numeral denotes, before any range check. */
  function NumeralValue(s: string): int
    requires IsNumeral(s)
  {
    var magnitude: int := DecimalValue(Unsigned(s));
    if s[0] == '-' then -magnitude else magnitude
  }

  /**
   * `strconv.Atoi(s)`: an optional '+' or '-', then one or more ASCII digits
   * and nothing else; a value outside the 64-bit range is a range error.
   * Go scans the digits left to right and stops with a range error as soon as
   * the value read so far exceeds 2^64 - 1, before it meets a later non-digit,
   * so a non-numeral whose leading digits already overflow is a range error.
   * Below 19 bytes no digit run can overflow, and Go's short-input fast path
   * agrees with this scan.
   */
  function Atoi(s: string): (r: Result<int, NumError>)
    ensures r.Ok? <==> IsNumeral(s) && InInt64(NumeralValue(s))
    ensures r.Ok? ==> r.value == NumeralValue(s)
    ensures r == Err(ErrSyntax) ==> !IsNumeral(s)
    ensures IsNumeral(s) && !InInt64(NumeralValue(s)) ==> r == Err(ErrRange)
  {
    if s == [] then Err(ErrSyntax)
    else
      var digits := Unsigned(s);
      if digits != [] && AllDigits(digits) then
        var magnitude: int := DecimalValue(digits);
        var n := if s[0] == '-' then -magnitude else magnitude;
        if !InInt64(n) then Err(ErrRange) else Ok(n)
      else if DecimalValue(LeadingDigits(digits)) > MaxUint64 then Err(ErrRange)
      else Err(ErrSyntax)
  }

  function Pow10(k: nat): (p: nat)
    ensures p > 0
  {
    if k == 0 then 1 else 10 * Pow10(k - 1)
  }

  lemma {:induction false} DecimalValueBelow(s: string)
    requires AllDigits(s)
    ensures DecimalValue(s) < Pow10(|s|)
  {
    if s != [] {
      DecimalValueBelow(s[..|s| - 1]);
    }
  }

  lemma {:induction false} LeadingDigitsOfRun(p: string, rest: string)
    requires AllDigits(p)
    requires rest == [] || !IsDigit(rest[0])
    ensures LeadingDigits(p + rest) == p
  {
    if p != [] {
      assert (p + rest)[1..] == p[1..] + rest;
      LeadingDigitsOfRun(p[1..], rest);
    } else {
      assert p + rest == rest;
    }
  }

  /**
   * Text shorter than 19 bytes that is not a numeral is always a syntax error:
   * its digits cannot reach 2^64.
   */
  lemma ShortNonNumeralIsSyntaxError(s: string)
    requires |s| < 19 && !IsNumeral(s)
    ensures Atoi(s) == Err(ErrSyntax)
  {
    if s != [] {
      var run := LeadingDigits(Unsigned(s));
      assert |run| <= 18;
      DecimalValueBelow(run);
      Pow10Monotone(|run|, 18);
      Pow10Sum(9, 9);
      assert Pow10(9) == 1_000_000_000;
    }
  }

  lemma {:induction false} Pow10Sum(j: nat, k: nat)
    ensures Pow10(j + k) == Pow10(j) * Pow10(k)
  {
    if k > 0 {
      Pow10Sum(j, k - 1);
    }
  }

  lemma {:induction false} Pow10Monotone(j: nat, k: nat)
    requires j <= k
    ensures Pow10(j) <= Pow10(k)
  {
    if j < k {
      Pow10Monotone(j, k - 1);
    }
  }

  /**
   * Digits past 2^64 - 1 followed by junk are a range error, not a syntax
   * error, with or without a sign: `Atoi("99999999999999999999x")` fails
   * with ErrRange.
   */
  lemma OverflowBeforeJunk(sign: string, n: nat, junk: string)
    requires sign in {"", "+", "-"}
    requires n > MaxUint64
    requires junk != [] && !IsDigit(junk[0])
    ensures Atoi(sign + Digits(n) + junk) == Err(ErrRange)
  {
    var d := Digits(n);
    var t := d + junk;
    var s := sign + t;
    assert s == sign + d + junk;
    if sign == "" {
      assert s == t && IsDigit(t[0]);
    } else {
      assert s[1..] == t;
    }
    assert Unsigned(s) == t;
    assert t[|d|] == junk[0];
    LeadingDigitsOfRun(d, junk);
    DecimalValueOfDigits(n);
  }

  lemma {:induction false} DecimalValueOfDigits(n: nat)
    ensures DecimalValue(Digits(n)) == n
  {
    var s := Digits(n);
    if n >= 10 {
      assert s[..|s| - 1] == Digits(n / 10);
      DecimalValueOfDigits(n / 10);
    }
  }

  /** Parsing a formatted integer gives it back, and only a 64-bit value parses. */
  lemma AtoiOfItoa(n: int)
    ensures Atoi(Itoa(n)) == if InInt64(n) then Ok(n) else Err(ErrRange)
  {
    var s := Itoa(n);
    if n < 0 {
      DecimalValueOfDigits(-n);
      assert s[1..] == Digits(-n);
      LeadingDigitsOfRun(Digits(-n), []);
      assert Digits(-n) + [] == Digits(-n);
    } else {
      DecimalValueOfDigits(n);
      assert s[0] != '+' && s[0] != '-';
      LeadingDigitsOfRun(Digits(n), []);
      assert Digits(n) + [] == Digits(n);
    }
  }

  /** Formatting is one-to-one: two integers with the same decimal text are equal. */
  lemma ItoaInjective(a: int, b: int)
    requires Itoa(a) == Itoa(b)
    ensures a == b
  {
    AtoiOfItoa(a);
    AtoiOfItoa(b);
    if !InInt64(a) || !InInt64(b) {
      // one of them lies outside the 64-bit range: compare the digits directly
      if a < 0 {
        assert Itoa(a)[1..] == Digits(-a);
        assert b < 0 && Itoa(b)[1..] == Digits(-b);
        DecimalValueOfDigits(-a);
        DecimalValueOfDigits(-b);
      } else {
        assert b >= 0;
        DecimalValueOfDigits(a);
        DecimalValueOfDigits(b);
      }
    }
  }
}
