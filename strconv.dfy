/** Go's strconv.Itoa and strconv.Atoi for a 64-bit `int`, as the envelope
    code uses them to turn HTTP status codes into strings and back. */
module Strconv {

  const MaxInt64: int := 0x7fff_ffff_ffff_ffff
  const MinInt64: int := -0x8000_0000_0000_0000

  predicate IsDigit(c: char) {
    '0' <= c <= '9'
  }

  predicate AllDigits(s: string) {
    forall i :: 0 <= i < |s| ==> IsDigit(s[i])
  }

  function DigitChar(d: int): (c: char)
    requires 0 <= d < 10
    ensures IsDigit(c) && DigitValue(c) == d
  {
    (('0' as int) + d) as char
  }

  function DigitValue(c: char): int
    requires IsDigit(c)
  {
    (c as int) - ('0' as int)
  }

  /** Decimal digits of n, most significant first, without leading zeros. */
  function Decimal(n: nat): (s: string)
    ensures |s| > 0 && AllDigits(s)
    ensures |s| > 1 ==> s[0] != '0'
    decreases n
  {
    if n < 10 then [DigitChar(n)] else Decimal(n / 10) + [DigitChar(n % 10)]
  }

  /** strconv.Itoa: a minus sign for negative numbers, then the decimal digits. */
  function Itoa(n: int): (s: string)
    ensures |s| > 0
    ensures n >= 0 <==> IsDigit(s[0])
    ensures n < 0 <==> s[0] == '-'
  {
    if n < 0 then "-" + Decimal(-n) else Decimal(n)
  }

  /** The number a string of decimal digits denotes. */
  function DigitsValue(s: string): nat
    requires AllDigits(s)
  {
    if |s| == 0 then 0 else DigitsValue(s[..|s| - 1]) * 10 + DigitValue(s[|s| - 1])
  }

  /** The syntax strconv.Atoi accepts in base 10: an optional sign, then at least one digit. */
  predicate WellFormed(s: string) {
    |s| > 0 &&
    var digits := Unsigned(s);
    |digits| > 0 && AllDigits(digits)
  }

  /** The text after an optional leading sign. */
  function Unsigned(s: string): string {
    if |s| > 0 && (s[0] == '-' || s[0] == '+') then s[1..] else s
  }

  /** How many digits the text starts with. */
  function LeadingDigits(s: string): (k: nat)
    ensures k <= |s| && AllDigits(s[..k])
    ensures k < |s| ==> !IsDigit(s[k])
  {
    if s == [] || !IsDigit(s[0]) then 0
    else
      var k := 1 + LeadingDigits(s[1..]);
      assert s[..k] == [s[0]] + s[1..][..k - 1];
      k
  }

  const MaxUint64: int := 0xffff_ffff_ffff_ffff

  /** ParseUint reads the digits left to right and stops with ErrRange at the
      first one that takes the value past 2^64-1, before it sees whatever
      follows: the digits up to the first non-digit already overflow. */
  predicate Overflows(s: string) {
    var digits := Unsigned(s);
    DigitsValue(digits[..LeadingDigits(digits)]) > MaxUint64
  }

  /** strconv.Atoi with its error dropped, as every caller here does
      (`status, _ := strconv.Atoi(...)`): 0 on a syntax error, the value on
      success, and the clamped value Go returns beside ErrRange on overflow,
      including an overflow met before a syntax error. */
  function Atoi(s: string): (n: int)
    ensures MinInt64 <= n <= MaxInt64
    ensures !WellFormed(s) && !Overflows(s) ==> n == 0
    ensures Overflows(s) ==> n == (if s[0] == '-' then MinInt64 else MaxInt64)
    ensures WellFormed(s) && s[0] != '-' ==>
              n == (if DigitsValue(Unsigned(s)) > MaxInt64 then MaxInt64 else DigitsValue(Unsigned(s)))
    ensures WellFormed(s) && s[0] == '-' ==>
              n == (if DigitsValue(s[1..]) > -MinInt64 then MinInt64 else -(DigitsValue(s[1..]) as int))
  {
    if s == [] then 0
    else
      var negative := s[0] == '-';
      var digits := Unsigned(s);
      var k := LeadingDigits(digits);
      assert WellFormed(s) ==> digits[..k] == digits;
      if DigitsValue(digits[..k]) > MaxUint64 then (if negative then MinInt64 else MaxInt64)
      else if k == 0 || k < |digits| then 0
      else
        assert digits[..k] == digits;
        var v: int := DigitsValue(digits);
        if negative then (if -v < MinInt64 then MinInt64 else -v)
        else (if v > MaxInt64 then MaxInt64 else v)
  }

  /** Digits whose value passes 2^64-1 overflow before a following
      non-digit is read, so Go's Atoi gives the clamped maximum, or the
      minimum under a minus sign, where a syntax error would give 0. */
  lemma OverflowBeforeSyntaxError(d: string, rest: string)
    requires AllDigits(d) && DigitsValue(d) > MaxUint64
    requires |rest| > 0 && !IsDigit(rest[0])
    ensures !WellFormed(d + rest) && !WellFormed("-" + d + rest)
    ensures Atoi(d + rest) == MaxInt64
    ensures Atoi("-" + d + rest) == MinInt64
  {
    var t := d + rest;
    assert t[|d|] == rest[0] && t[..|d|] == d;
    assert LeadingDigits(t) == |d|;
    assert ("-" + d + rest)[1..] == t;
  }

  lemma {:induction false} DecimalValue(n: nat)
    ensures DigitsValue(Decimal(n)) == n
    decreases n
  {
    var s := Decimal(n);
    if n >= 10 {
      DecimalValue(n / 10);
      assert s[..|s| - 1] == Decimal(n / 10);
    }
  }

  /** Atoi undoes Itoa on every 64-bit integer. */
  lemma AtoiItoa(n: int)
    requires MinInt64 <= n <= MaxInt64
    ensures WellFormed(Itoa(n))
    ensures Atoi(Itoa(n)) == n
  {
    if n < 0 {
      DecimalValue(-n);
      assert Itoa(n)[1..] == Decimal(-n);
    } else {
      DecimalValue(n);
    }
  }
}
