/**
 * Kotlin/JVM integer semantics the core relies on: 32-bit `Int` wrap-around,
 * truncating `/` and `%`, decimal `toString()` and `String.toInt()`.
 */
module Numbers {
  import opened Wrappers

  const INT_MIN: int := -0x8000_0000
  const INT_MAX: int := 0x7fff_ffff
  const LONG_MIN: int := -0x8000_0000_0000_0000
  const LONG_MAX: int := 0x7fff_ffff_ffff_ffff

  /** A value of Kotlin's 32-bit `Int`. */
  predicate IsInt(x: int) { INT_MIN <= x <= INT_MAX }

  /** A value of Kotlin's 64-bit `Long`. */
  predicate IsLong(x: int) { LONG_MIN <= x <= LONG_MAX }

  /** The `Int` that the JVM keeps of an exact result: two's-complement wrap-around. */
  function WrapInt(x: int): (r: int)
    ensures IsInt(r)
    ensures (x - r) % 0x1_0000_0000 == 0
    ensures IsInt(x) ==> r == x
  {
    var m := x % 0x1_0000_0000;
    if m <= INT_MAX then m else m - 0x1_0000_0000
  }

  /** Values that agree modulo 2^32 wrap to the same `Int`, so intermediate overflow washes out. */
  lemma WrapIntCongruent(x: int, y: int)
    requires (x - y) % 0x1_0000_0000 == 0
    ensures WrapInt(x) == WrapInt(y)
  {
    var k := (x - y) / 0x1_0000_0000;
    assert x == y + k * 0x1_0000_0000;
    ModShift(y, k);
  }

  lemma {:induction false} ModShift(y: int, k: int)
    ensures (y + k * 0x1_0000_0000) % 0x1_0000_0000 == y % 0x1_0000_0000
    decreases if k < 0 then -k else k
  {
    if k > 0 {
      ModShift(y, k - 1);
      assert y + k * 0x1_0000_0000 == (y + (k - 1) * 0x1_0000_0000) + 0x1_0000_0000;
    } else if k < 0 {
      ModShift(y, k + 1);
      assert y + k * 0x1_0000_0000 == (y + (k + 1) * 0x1_0000_0000) - 0x1_0000_0000;
    }
  }

  /** JVM integer division, which truncates toward zero (for a positive divisor). */
  function TruncDiv(a: int, b: int): (q: int)
    requires b > 0
    ensures a >= 0 ==> q == a / b
    ensures a < 0 ==> q == -((-a) / b)
  {
    if a >= 0 then a / b else -((-a) / b)
  }

  /** JVM remainder: it takes the sign of the dividend. */
  function TruncRem(a: int, b: int): (r: int)
    requires b > 0
    ensures a == b * TruncDiv(a, b) + r
    ensures -b < r < b
    ensures a >= 0 ==> 0 <= r && r == a % b
    ensures a < 0 ==> r <= 0
  {
    a - b * TruncDiv(a, b)
  }

  predicate IsDigit(c: char) { '0' <= c <= '9' }

  predicate AllDigits(s: string) { forall i :: 0 <= i < |s| ==> IsDigit(s[i]) }

  function DigitChar(d: nat): (c: char)
    requires d < 10
    ensures IsDigit(c) && DigitValue(c) == d
  {
    (d + '0' as int) as char
  }

  function DigitValue(c: char): (d: nat)
    requires IsDigit(c)
    ensures d < 10
  {
    c as int - '0' as int
  }

  /** The decimal digits of a natural number, most significant first, without leading zeros. */
  function NatToString(n: nat): (s: string)
    ensures |s| >= 1 && AllDigits(s)
    ensures s[0] == '0' ==> n == 0
    decreases n
  {
    if n < 10 then [DigitChar(n)] else NatToString(n / 10) + [DigitChar(n % 10)]
  }

  /** `Int.toString()` / `Long.toString()`: a minus sign for negative values. */
  function IntToString(x: int): (s: string)
    ensures |s| >= 1
    ensures x >= 0 ==> s == NatToString(x)
    ensures x < 0 ==> s == "-" + NatToString(-x)
  {
    if x < 0 then "-" + NatToString(-x) else NatToString(x)
  }

  /** The number a string of decimal digits denotes; `None` as soon as one character is not a digit. */
  function ParseDigits(s: string): Option<nat>
    decreases |s|
  {
    if s == [] then Some(0)
    else if !IsDigit(s[|s| - 1]) then None
    else match ParseDigits(s[..|s| - 1])
      case None => None
      case Some(v) => Some(v * 10 + DigitValue(s[|s| - 1]))
  }

  /** The digit parser accepts exactly the strings made only of decimal digits. */
  lemma {:induction false} ParseDigitsAccepts(s: string)
    ensures ParseDigits(s).Some? <==> AllDigits(s)
    decreases |s|
  {
    if s != [] {
      var init := s[..|s| - 1];
      ParseDigitsAccepts(init);
      assert forall i :: 0 <= i < |init| ==> init[i] == s[i];
    }
  }

  /**
   * Kotlin's `String.toInt()`: an optional `+` or `-` sign, then one or more
   * decimal digits, denoting a value that fits an `Int`; anything else throws
   * `NumberFormatException`, here `None`.
   */
  function ToInt(s: string): (r: Option<int>)
    ensures r.Some? ==> IsInt(r.value)
  {
    if |s| == 0 then None
    else if s[0] == '-' || s[0] == '+' then
      if |s| == 1 then None
      else match ParseDigits(s[1..])
        case None => None
        case Some(d) =>
          var v := if s[0] == '-' then 0 - d else d;
          if IsInt(v) then Some(v) else None
    else match ParseDigits(s)
      case None => None
      case Some(v) => if IsInt(v) then Some(v) else None
  }

  /** The digits of a numeral: what follows a leading sign, or the whole string. */
  function Digits(s: string): (d: string)
    ensures |d| == |s| || |d| == |s| - 1
  {
    if |s| > 0 && (s[0] == '-' || s[0] == '+') then s[1..] else s
  }

  /** Kotlin's numeral syntax: an optional `+` or `-`, then one or more decimal digits. */
  predicate IsNumeral(s: string) {
    |Digits(s)| >= 1 && AllDigits(Digits(s))
  }

  function Pow10(n: nat): (p: nat)
    ensures p >= 1
  {
    if n == 0 then 1 else 10 * Pow10(n - 1)
  }

  lemma {:induction false} Pow10Monotone(m: nat, n: nat)
    requires m <= n
    ensures Pow10(m) <= Pow10(n)
    decreases n
  {
    if m < n {
      Pow10Monotone(m, n - 1);
    }
  }

  /** A string of `n` digits denotes a number below ten to the `n`. */
  lemma {:induction false} ParseDigitsBound(s: string)
    ensures ParseDigits(s).Some? ==> ParseDigits(s).value < Pow10(|s|)
    decreases |s|
  {
    if s != [] {
      var init := s[..|s| - 1];
      ParseDigitsBound(init);
      if ParseDigits(s).Some? {
        var v := ParseDigits(init).value;
        assert v + 1 <= Pow10(|init|);
        assert v * 10 + 10 <= Pow10(|init|) * 10;
      }
    }
  }

  /**
   * What `toInt` accepts: only numerals, and every numeral of at most nine
   * digits (larger ones only when their value fits an `Int`).
   */
  lemma ToIntAccepts(s: string)
    ensures ToInt(s).Some? ==> IsNumeral(s)
    ensures IsNumeral(s) && |Digits(s)| <= 9 ==> ToInt(s).Some?
  {
    var d := Digits(s);
    ParseDigitsAccepts(d);
    ParseDigitsBound(d);
    if IsNumeral(s) && |d| <= 9 {
      Pow10Monotone(|d|, 9);
      assert Pow10(9) == 1000000000;
    }
  }

  /** Reading back the digits that `NatToString` writes gives the number again. */
  lemma {:induction false} NatToStringRoundTrip(n: nat)
    ensures ParseDigits(NatToString(n)) == Some(n)
    decreases n
  {
    if n >= 10 {
      var s := NatToString(n);
      NatToStringRoundTrip(n / 10);
      assert s[..|s| - 1] == NatToString(n / 10);
    }
  }

  /** Distinct numbers have distinct decimal strings. */
  lemma NatToStringInjective(a: nat, b: nat)
    ensures NatToString(a) == NatToString(b) <==> a == b
  {
    NatToStringRoundTrip(a);
    NatToStringRoundTrip(b);
  }

  /** `toInt()` parses what `toString()` prints, for every `Int`. */
  lemma IntToStringRoundTrip(x: int)
    requires IsInt(x)
    ensures ToInt(IntToString(x)) == Some(x)
  {
    var s := IntToString(x);
    if x < 0 {
      NatToStringRoundTrip(-x);
      assert s[1..] == NatToString(-x);
    } else {
      NatToStringRoundTrip(x);
    }
  }

  /** Distinct numbers have distinct `toString()` images, so ids can be keyed by their strings. */
  lemma IntToStringInjective(a: int, b: int)
    ensures IntToString(a) == IntToString(b) <==> a == b
  {
    if IntToString(a) == IntToString(b) {
      if a < 0 && b < 0 {
        assert NatToString(-a) == IntToString(a)[1..] == IntToString(b)[1..] == NatToString(-b);
        NatToStringInjective(-a, -b);
      } else if a >= 0 && b >= 0 {
        NatToStringInjective(a, b);
      }
    }
  }
}
