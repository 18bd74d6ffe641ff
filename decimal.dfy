/** Integer.toString, Integer.parseInt and the %010d suffix ZooKeeper appends
    to a sequential node name, over Java's 32-bit int range. */
module Decimal {
  import opened Failure

  const INT_MIN: int := -0x8000_0000
  const INT_MAX: int := 0x7fff_ffff

  /** A value of Java's int type. */
  type JavaInt = x: int | INT_MIN <= x <= INT_MAX

  predicate IsDigit(c: char) { '0' <= c <= '9' }

  predicate AllDigits(s: string) { forall i | 0 <= i < |s| :: IsDigit(s[i]) }

  function DigitChar(d: int): (c: char)
    requires 0 <= d < 10
    ensures IsDigit(c)
  {
    ('0' as int + d) as char
  }

  function DigitValue(c: char): int
    requires IsDigit(c)
  {
    c as int - '0' as int
  }

  /** The digits of n, most significant first, without leading zeros. */
  function Digits(n: nat): (s: string)
    ensures |s| > 0 && AllDigits(s)
    decreases n
  {
    if n < 10 then [DigitChar(n)] else Digits(n / 10) + [DigitChar(n % 10)]
  }

  /** Integer.toString(n). */
  function Itos(n: int): string {
    if n < 0 then "-" + Digits(-n) else Digits(n)
  }

  function Zeros(k: nat): (s: string)
    ensures |s| == k && AllDigits(s)
  {
    seq(k, _ => '0')
  }

  /** String.format("%010d", n): at least ten digits, zero-padded on the left. */
  function Pad10(n: nat): (s: string)
    ensures |s| >= 10 && AllDigits(s)
  {
    var d := Digits(n);
    if |d| < 10 then Zeros(10 - |d|) + d else d
  }

  /** The number a string of digits denotes. */
  function Value(s: string): nat
    requires AllDigits(s)
  {
    if s == [] then 0 else Value(s[..|s| - 1]) * 10 + DigitValue(s[|s| - 1])
  }

  /** Integer.parseInt(s): an optional sign and one or more digits, within
      the int range; anything else is a NumberFormatException (None). */
  function ParseInt(s: string): (r: Option<int>)
    ensures r.Some? ==> INT_MIN <= r.value <= INT_MAX
  {
    if |s| > 0 && (s[0] == '-' || s[0] == '+') then Magnitude(s[1..], s[0] == '-')
    else Magnitude(s, false)
  }

  function Magnitude(d: string, negative: bool): (r: Option<int>)
    ensures r.Some? ==> INT_MIN <= r.value <= INT_MAX
  {
    if |d| == 0 || !AllDigits(d) then None
    else
      var v: int := if negative then 0 - Value(d) as int else Value(d);
      if INT_MIN <= v <= INT_MAX then Some(v) else None
  }

  lemma {:induction false} ValueOfDigits(n: nat)
    ensures Value(Digits(n)) == n
    decreases n
  {
    if n >= 10 {
      var d := Digits(n);
      assert d[..|d| - 1] == Digits(n / 10);
      ValueOfDigits(n / 10);
    }
  }

  lemma {:induction false} ValueOfZeros(k: nat)
    ensures Value(Zeros(k)) == 0
  {
    if k > 0 {
      assert Zeros(k)[..k - 1] == Zeros(k - 1);
      ValueOfZeros(k - 1);
    }
  }

  /** Leading zeros do not change the value of a digit string. */
  lemma {:induction false} LeadingZeros(k: nat, s: string)
    requires AllDigits(s)
    ensures AllDigits(Zeros(k) + s) && Value(Zeros(k) + s) == Value(s)
    decreases |s|
  {
    var t := Zeros(k) + s;
    assert AllDigits(t);
    if s == [] {
      assert t == Zeros(k);
      ValueOfZeros(k);
    } else {
      var s' := s[..|s| - 1];
      assert t[..|t| - 1] == Zeros(k) + s';
      LeadingZeros(k, s');
    }
  }

  /** Integer.parseInt(Integer.toString(n)) == n. */
  lemma ParseItos(n: int)
    requires INT_MIN <= n <= INT_MAX
    ensures ParseInt(Itos(n)) == Some(n)
  {
    if n < 0 {
      var d := Digits(-n);
      assert Itos(n)[0] == '-' && Itos(n)[1..] == d;
      ValueOfDigits(-n);
      assert Magnitude(d, true) == Some(n);
    } else {
      var d := Digits(n);
      assert IsDigit(d[0]);
      ValueOfDigits(n);
      assert Magnitude(d, false) == Some(n);
    }
  }

  /** The number ZooKeeper encodes in a sequential name is read back by parseInt. */
  lemma ParsePad10(n: nat)
    requires n <= INT_MAX
    ensures ParseInt(Pad10(n)) == Some(n)
  {
    var d := Digits(n);
    ValueOfDigits(n);
    if |d| < 10 {
      LeadingZeros(10 - |d|, d);
    }
  }

  /** Distinct numbers get distinct decimal names (so distinct view paths). */
  lemma ItosInjective(a: int, b: int)
    requires INT_MIN <= a <= INT_MAX && INT_MIN <= b <= INT_MAX
    requires Itos(a) == Itos(b)
    ensures a == b
  {
    ParseItos(a);
    ParseItos(b);
  }

  function Pow10(k: nat): (p: nat)
    ensures p >= 1
  {
    if k == 0 then 1 else 10 * Pow10(k - 1)
  }

  /** A digit string of length k denotes less than 10^k. */
  lemma {:induction false} ValueBound(s: string)
    requires AllDigits(s)
    ensures Value(s) < Pow10(|s|)
    decreases |s|
  {
    if s != [] {
      ValueBound(s[..|s| - 1]);
    }
  }

  /** Reading a digit string from the left: the first digit weighs 10^(|s|-1). */
  lemma {:induction false} ValueFromLeft(s: string)
    requires |s| > 0 && AllDigits(s)
    ensures Value(s) == DigitValue(s[0]) * Pow10(|s| - 1) + Value(s[1..])
    decreases |s|
  {
    if |s| > 1 {
      var init, tail := s[..|s| - 1], s[1..];
      ValueFromLeft(init);
      assert init[1..] == tail[..|tail| - 1] && tail[|tail| - 1] == s[|s| - 1];
      assert init[0] == s[0];
      Shift(DigitValue(s[0]), Pow10(|s| - 2), Value(init[1..]), DigitValue(s[|s| - 1]));
    } else {
      assert s[..0] == [] && s[1..] == [];
    }
  }

  /** Appending a digit to d followed by v (worth p) multiplies both by ten. */
  lemma Shift(d: int, p: int, v: int, l: int)
    ensures (d * p + v) * 10 + l == d * (p * 10) + (v * 10 + l)
  {
  }


  /** The decimal form of a number below 10^k has at most k digits. */
  lemma {:induction false} DigitsLength(n: nat, k: nat)
    requires k >= 1 && n < Pow10(k)
    ensures |Digits(n)| <= k
    decreases n
  {
    if n >= 10 {
      assert k >= 2;
      assert n / 10 < Pow10(k - 1);
      DigitsLength(n / 10, k - 1);
    }
  }

  /** Every name ZooKeeper gives a sequential node numbered within the int range
      is exactly ten digits long, and denotes its number. */
  lemma Pad10Exact(n: nat)
    requires n <= INT_MAX
    ensures |Pad10(n)| == 10 && Value(Pad10(n)) == n
  {
    assert Pow10(10) == 10_000_000_000;
    DigitsLength(n, 10);
    ValueOfDigits(n);
    var d := Digits(n);
    if |d| < 10 {
      LeadingZeros(10 - |d|, d);
    }
  }
}
