/**
 * The few Java library operations the JVM ecosystem utilities rely on:
 * `Integer.parseInt` in radix 10 and `List.indexOf`.
 */
module JavaLang {
  import opened Wrappers

  /** Bounds of Java's 32-bit `int`. */
  const MinInt: int := -0x8000_0000
  const MaxInt: int := 0x7FFF_FFFF

  predicate IsInt32(n: int) { MinInt <= n <= MaxInt }

  /** What `Integer.parseInt` throws, carrying the rejected input. */
  datatype NumberFormatException = NumberFormatException(input: string)

  predicate IsDigit(c: char) { '0' <= c <= '9' }

  predicate AllDigits(s: string) { forall i :: 0 <= i < |s| ==> IsDigit(s[i]) }

  function DigitValue(c: char): (d: nat)
    requires IsDigit(c)
    ensures d < 10
  {
    (c as int) - ('0' as int)
  }

  function DigitChar(d: nat): (c: char)
    requires d < 10
    ensures IsDigit(c) && DigitValue(c) == d
  {
    (('0' as int) + d) as char
  }

  /** Decimal value of a run of digits, most significant digit first. */
  function DigitsValue(s: string): nat
    requires AllDigits(s)
  {
    if |s| == 0 then 0 else DigitsValue(s[..|s| - 1]) * 10 + DigitValue(s[|s| - 1])
  }

  /**
   * `Integer.parseInt(s)`: an optional leading `-` or `+`, then at least one
   * digit; the value must fit in 32 bits (a negative value may reach
   * `MinInt`, a positive one only `MaxInt`). Anything else throws.
   */
  function ParseInt(s: string): (r: Result<int, NumberFormatException>)
    ensures r.Ok? ==> IsInt32(r.value)
    ensures r.Err? ==> r.error == NumberFormatException(s)
    ensures r.Ok? ==> |s| > 0
  {
    if |s| == 0 then Err(NumberFormatException(s))
    else
      var negative := s[0] == '-';
      var start := if s[0] == '-' || s[0] == '+' then 1 else 0;
      var digits := s[start..];
      if |digits| == 0 || !AllDigits(digits) then Err(NumberFormatException(s))
      else
        var v: int := DigitsValue(digits);
        if negative && v <= -MinInt then Ok(-v)
        else if !negative && v <= MaxInt then Ok(v)
        else Err(NumberFormatException(s))
  }

  /** Decimal rendering of a natural number, without leading zeros. */
  function NatToString(n: nat): (s: string)
    ensures |s| > 0 && AllDigits(s)
  {
    if n < 10 then [DigitChar(n)] else NatToString(n / 10) + [DigitChar(n % 10)]
  }

  /** `Integer.toString(n)`. */
  function IntToString(n: int): string
  {
    if n < 0 then "-" + NatToString(-n) else NatToString(n)
  }

  lemma {:induction false} DigitsValueOfNatToString(n: nat)
    ensures DigitsValue(NatToString(n)) == n
  {
    if n >= 10 {
      var s := NatToString(n);
      assert s[..|s| - 1] == NatToString(n / 10);
      DigitsValueOfNatToString(n / 10);
    }
  }

  /** A non-negative 32-bit integer written in decimal parses back to itself. */
  lemma ParseIntRoundTripNonNegative(n: nat)
    requires n <= MaxInt
    ensures ParseInt(IntToString(n)) == Ok(n)
  {
    DigitsValueOfNatToString(n);
  }

  /** A negative 32-bit integer written in decimal, after its minus sign, parses back to itself. */
  lemma ParseIntRoundTripNegative(n: int)
    requires MinInt <= n < 0
    ensures ParseInt(IntToString(n)) == Ok(n)
  {
    var s := IntToString(n);
    var digits := NatToString(-n);
    assert s == "-" + digits && s[0] == '-';
    assert s[1..] == digits;
    DigitsValueOfNatToString(-n);
    assert DigitsValue(s[1..]) == -n <= -MinInt;
  }

  /** Every 32-bit integer written in decimal parses back to itself. */
  lemma ParseIntRoundTrip(n: int)
    requires IsInt32(n)
    ensures ParseInt(IntToString(n)) == Ok(n)
  {
    if n < 0 {
      ParseIntRoundTripNegative(n);
    } else {
      ParseIntRoundTripNonNegative(n);
    }
  }

  /**
   * A run of digits beyond the 32-bit range is rejected: unsigned or with
   * `+` above `MaxInt`, with `-` above `-MinInt`.
   */
  lemma ParseIntRejectsOutOfRange(digits: string)
    requires |digits| > 0 && AllDigits(digits)
    ensures DigitsValue(digits) > MaxInt ==> ParseInt(digits).Err? && ParseInt("+" + digits).Err?
    ensures DigitsValue(digits) > -MinInt ==> ParseInt("-" + digits).Err?
  {
    assert ("+" + digits)[1..] == digits;
    assert ("-" + digits)[1..] == digits;
  }

  /** A run of digits within range reads as its decimal value, with or without a leading `+` (so "08" and "+8" read as 8). */
  lemma ParseIntAcceptsInRange(digits: string)
    requires |digits| > 0 && AllDigits(digits) && DigitsValue(digits) <= MaxInt
    ensures ParseInt(digits) == Ok(DigitsValue(digits))
    ensures ParseInt("+" + digits) == Ok(DigitsValue(digits))
  {
    assert ("+" + digits)[1..] == digits;
  }

  /** A run of digits within range after `-` reads as minus its value, leading zeros included ("-0" reads as 0, "-08" as -8). */
  lemma ParseIntAcceptsNegative(digits: string)
    requires |digits| > 0 && AllDigits(digits) && DigitsValue(digits) <= -MinInt
    ensures ParseInt("-" + digits) == Ok(-(DigitsValue(digits) as int))
  {
    assert ("-" + digits)[1..] == digits;
  }

  /**
   * A string holding a character that is neither a digit nor a sign in
   * front is rejected, as is a string without any digit.
   */
  lemma ParseIntRejectsNonNumeric(s: string, i: nat)
    requires i < |s| && !IsDigit(s[i])
    requires i > 0 || (s[0] != '-' && s[0] != '+') || |s| == 1
    ensures ParseInt(s).Err?
  {
  }

  /**
   * `List.indexOf(x)`: the index of the first element equal to `x`, or -1
   * when there is none.
   */
  function IndexOf<T(==)>(xs: seq<T>, x: T): (r: int)
    ensures -1 <= r < |xs|
    ensures r == -1 <==> x !in xs
    ensures r >= 0 ==> xs[r] == x && x !in xs[..r]
  {
    if |xs| == 0 then -1
    else if xs[0] == x then 0
    else
      var k := IndexOf(xs[1..], x);
      assert xs == [xs[0]] + xs[1..];
      if k == -1 then -1
      else
        assert xs[..k + 1] == [xs[0]] + xs[1..][..k];
        k + 1
  }

  /** The first occurrence of `x` after a prefix without one is at the prefix's length. */
  lemma IndexOfAfterPrefix<T>(prefix: seq<T>, x: T, rest: seq<T>)
    requires x !in prefix
    ensures IndexOf(prefix + [x] + rest, x) == |prefix|
  {
    var xs := prefix + [x] + rest;
    assert xs[|prefix|] == x;
    assert xs[..|prefix|] == prefix;
    assert forall i :: 0 <= i < |prefix| ==> xs[i] == prefix[i];
  }
}
