/**
 * The parts of java.lang the services lean on: fixed-width counters that
 * wrap around, ASCII case mapping, and the String helpers the code calls
 * (lastIndexOf, startsWith, equalsIgnoreCase, "%d" formatting), and the
 * search over an enum's `values()` its lookup methods run.
 */
module JavaLang {
  import opened Common

  // ---------------------------------------------------------------------
  // Fixed-width integers
  // ---------------------------------------------------------------------

  const IntMin: int := -0x8000_0000
  const IntMax: int := 0x7fff_ffff
  const LongMin: int := -0x8000_0000_0000_0000
  const LongMax: int := 0x7fff_ffff_ffff_ffff

  /** A Java `int` / `Integer` value. */
  newtype Int32 = x: int | -0x8000_0000 <= x < 0x8000_0000

  /** A Java `long` / `Long` value. */
  newtype Int64 = x: int | -0x8000_0000_0000_0000 <= x < 0x8000_0000_0000_0000

  /** `x++` on a Java int: the result is x + 1 modulo 2^32, read back as a signed int. */
  function IntIncrement(x: Int32): (r: Int32)
    ensures (r as int - (x as int + 1)) % 0x1_0000_0000 == 0
    ensures x as int < IntMax ==> r as int == x as int + 1
  {
    if x == 0x7fff_ffff then -0x8000_0000 else x + 1
  }

  /** `x++` on a Java long: the result is x + 1 modulo 2^64, read back as a signed long. */
  function LongIncrement(x: Int64): (r: Int64)
    ensures (r as int - (x as int + 1)) % 0x1_0000_0000_0000_0000 == 0
    ensures x as int < LongMax ==> r as int == x as int + 1
  {
    if x == 0x7fff_ffff_ffff_ffff then -0x8000_0000_0000_0000 else x + 1
  }

  /** n successive `x++` on an int. */
  function IntIncrementTimes(x: Int32, n: nat): Int32
  {
    if n == 0 then x else IntIncrement(IntIncrementTimes(x, n - 1))
  }

  /** n successive `x++` on a long. */
  function LongIncrementTimes(x: Int64, n: nat): Int64
  {
    if n == 0 then x else LongIncrement(LongIncrementTimes(x, n - 1))
  }

  /** Below the wrap point, n increments of an int add exactly n. */
  lemma {:induction false} IntIncrementTimesAdds(x: Int32, n: nat)
    requires x as int + n <= IntMax
    ensures IntIncrementTimes(x, n) as int == x as int + n
  {
    if n > 0 {
      IntIncrementTimesAdds(x, n - 1);
    }
  }

  /** Below the wrap point, n increments of a long add exactly n. */
  lemma {:induction false} LongIncrementTimesAdds(x: Int64, n: nat)
    requires x as int + n <= LongMax
    ensures LongIncrementTimes(x, n) as int == x as int + n
  {
    if n > 0 {
      LongIncrementTimesAdds(x, n - 1);
    }
  }

  /** At the top of the range one more increment wraps to the smallest int. */
  lemma IntIncrementWraps()
    ensures IntIncrement(0x7fff_ffff) as int == IntMin
  {
  }

  // ---------------------------------------------------------------------
  // Case mapping (ASCII letters only)
  // ---------------------------------------------------------------------

  function UpperChar(c: char): char
  {
    if 'a' <= c <= 'z' then (c as int - 32) as char else c
  }

  function LowerChar(c: char): char
  {
    if 'A' <= c <= 'Z' then (c as int + 32) as char else c
  }

  /** String.toUpperCase, restricted to ASCII letters. */
  function ToUpperCase(s: string): (r: string)
    ensures |r| == |s|
  {
    seq(|s|, i requires 0 <= i < |s| => UpperChar(s[i]))
  }

  /** String.toLowerCase, restricted to ASCII letters. */
  function ToLowerCase(s: string): (r: string)
    ensures |r| == |s|
  {
    seq(|s|, i requires 0 <= i < |s| => LowerChar(s[i]))
  }

  /** String.equalsIgnoreCase on ASCII text: equal once both sides are upper-cased. */
  predicate EqualsIgnoreCase(a: string, b: string)
  {
    ToUpperCase(a) == ToUpperCase(b)
  }

  predicate IsUpperCase(s: string)
  {
    forall i :: 0 <= i < |s| ==> !('a' <= s[i] <= 'z')
  }

  /** Upper-casing text that has no lower-case ASCII letter changes nothing. */
  lemma UpperCaseFixed(s: string)
    requires IsUpperCase(s)
    ensures ToUpperCase(s) == s
  {
  }

  /** Lower-case and upper-case spellings of the same word compare equal ignoring case. */
  lemma LowerCaseEqualsIgnoringCase(s: string)
    ensures EqualsIgnoreCase(ToLowerCase(s), s)
  {
    var a, b := ToUpperCase(ToLowerCase(s)), ToUpperCase(s);
    assert forall i :: 0 <= i < |s| ==> a[i] == b[i];
  }

  // ---------------------------------------------------------------------
  // Searching
  // ---------------------------------------------------------------------

  /** String.startsWith. */
  predicate StartsWith(s: string, prefix: string)
  {
    |prefix| <= |s| && s[..|prefix|] == prefix
  }

  /** String.lastIndexOf(char): the last position holding c, or -1 when there is none. */
  function LastIndexOf(s: string, c: char): (r: int)
    ensures -1 <= r < |s|
    ensures r >= 0 ==> s[r] == c
    ensures forall i :: r < i < |s| ==> s[i] != c
  {
    if |s| == 0 then -1
    else if s[|s| - 1] == c then |s| - 1
    else LastIndexOf(s[..|s| - 1], c)
  }

  // ---------------------------------------------------------------------
  // Decimal formatting ("%d" of a non-negative value)
  // ---------------------------------------------------------------------

  predicate IsDigit(c: char)
  {
    '0' <= c <= '9'
  }

  predicate AllDigits(s: string)
  {
    forall i :: 0 <= i < |s| ==> IsDigit(s[i])
  }

  function DigitChar(d: nat): (c: char)
    requires d < 10
    ensures IsDigit(c)
  {
    ('0' as int + d) as char
  }

  function DigitValue(c: char): nat
    requires IsDigit(c)
  {
    c as int - '0' as int
  }

  /** "%d" of a non-negative int: its decimal digits without leading zeros. */
  function DecimalString(n: nat): (r: string)
    ensures 1 <= |r|
    ensures AllDigits(r)
    ensures |r| > 1 ==> r[0] != '0'
  {
    if n < 10 then [DigitChar(n)] else DecimalString(n / 10) + [DigitChar(n % 10)]
  }

  /** The number a string of decimal digits denotes (the reading side of DecimalString). */
  function DecimalValue(s: string): nat
    requires AllDigits(s)
  {
    if s == [] then 0 else DecimalValue(s[..|s| - 1]) * 10 + DigitValue(s[|s| - 1])
  }

  /** Printing a number in decimal and reading it back gives the number. */
  lemma {:induction false} DecimalRoundTrip(n: nat)
    ensures DecimalValue(DecimalString(n)) == n
  {
    var s := DecimalString(n);
    if n >= 10 {
      var prefix := DecimalString(n / 10);
      assert s == prefix + [DigitChar(n % 10)];
      assert s[..|s| - 1] == prefix;
      DecimalRoundTrip(n / 10);
    }
  }

  // ---------------------------------------------------------------------
  // Enum lookup
  // ---------------------------------------------------------------------

  /**
   * The loop `for (v : values()) if (key(v).equals(s)) return v;`: the
   * first value, in declaration order, whose key is s.
   */
  function FirstWithKey<T>(values: seq<T>, key: T -> string, s: string): (r: Option<T>)
    ensures r.Some? ==> r.value in values && key(r.value) == s
    ensures r.None? <==> forall i :: 0 <= i < |values| ==> key(values[i]) != s
  {
    if values == [] then None
    else if key(values[0]) == s then Some(values[0])
    else FirstWithKey(values[1..], key, s)
  }

  /** The same loop comparing with `equalsIgnoreCase`. */
  function FirstWithKeyIgnoringCase<T>(values: seq<T>, key: T -> string, s: string): (r: Option<T>)
    ensures r.Some? ==> r.value in values && EqualsIgnoreCase(key(r.value), s)
    ensures r.None? <==> forall i :: 0 <= i < |values| ==> !EqualsIgnoreCase(key(values[i]), s)
  {
    if values == [] then None
    else if EqualsIgnoreCase(key(values[0]), s) then Some(values[0])
    else FirstWithKeyIgnoringCase(values[1..], key, s)
  }

  /** A value whose key no earlier value shares is found by its own key. */
  lemma {:induction false} FirstWithKeyFinds<T>(values: seq<T>, key: T -> string, i: nat)
    requires i < |values|
    requires forall j :: 0 <= j < i ==> key(values[j]) != key(values[i])
    ensures FirstWithKey(values, key, key(values[i])) == Some(values[i])
  {
    if i > 0 {
      assert key(values[0]) != key(values[i]);
      assert values[i] == values[1..][i - 1];
      FirstWithKeyFinds(values[1..], key, i - 1);
    }
  }

  /** The same for the case-insensitive loop, given no earlier key matches ignoring case. */
  lemma {:induction false} FirstWithKeyIgnoringCaseFinds<T>(values: seq<T>, key: T -> string, i: nat, s: string)
    requires i < |values| && EqualsIgnoreCase(key(values[i]), s)
    requires forall j :: 0 <= j < i ==> !EqualsIgnoreCase(key(values[j]), s)
    ensures FirstWithKeyIgnoringCase(values, key, s) == Some(values[i])
  {
    if i > 0 {
      assert !EqualsIgnoreCase(key(values[0]), s);
      assert values[i] == values[1..][i - 1];
      FirstWithKeyIgnoringCaseFinds(values[1..], key, i - 1, s);
    }
  }
}
