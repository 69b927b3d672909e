/**
 * Decimal integers as Go's `strconv` package reads and writes them on a
 * 64-bit platform: `Atoi` (what main.go applies to the port segment of
 * `--bind`) and `Itoa`, its formatting inverse, used to state round trips.
 */
module Numeric {
  import opened Wrappers

  /** Range of Go's `int` on a 64-bit platform. */
  const IntMin: int := -0x8000_0000_0000_0000
  const IntMax: int := 0x7fff_ffff_ffff_ffff

  predicate InIntRange(n: int) { IntMin <= n <= IntMax }

  predicate IsDigit(c: char) { '0' <= c <= '9' }

  predicate AllDigits(s: string) { forall i :: 0 <= i < |s| ==> IsDigit(s[i]) }

  predicate IsSign(c: char) { c == '+' || c == '-' }

  function DigitValue(c: char): (d: nat)
    requires IsDigit(c)
    ensures d < 10
  {
    (c as int) - ('0' as int)
  }

  function DigitChar(d: nat): (c: char)
    requires d < 10
    ensures IsDigit(c) && DigitValue(c) == d
  {
    ('0' as int + d) as char
  }

  /** The value of a string of decimal digits, most significant first. */
  function DigitsValue(s: string): nat
    requires AllDigits(s)
  {
    if s == [] then 0 else DigitsValue(s[..|s| - 1]) * 10 + DigitValue(s[|s| - 1])
  }

  /**
   * Go's `strconv.Atoi(s)`: an optional leading `+` or `-`, then at least one
   * ASCII digit and nothing else (base 10, so no `_` separators and no
   * spaces), and the value must fit in a 64-bit `int`. `None` stands for a
   * non-nil error, of either kind (syntax or range).
   */
  function Atoi(s: string): (r: Option<int>)
    ensures r.Some? ==> InIntRange(r.value)
    ensures |s| == 0 ==> r.None?
    ensures |s| == 1 && IsSign(s[0]) ==> r.None?
    ensures |s| > 0 && !IsSign(s[0]) && !IsDigit(s[0]) ==> r.None?
    ensures forall i :: 0 < i < |s| && !IsDigit(s[i]) ==> r.None?
    ensures r.Some? && s[0] == '-' ==> r.value <= 0
    ensures r.Some? && s[0] != '-' ==> r.value >= 0
  {
    var digits := if |s| > 0 && IsSign(s[0]) then s[1..] else s;
    if digits == [] || !AllDigits(digits) then None
    else
      var v: int := if s[0] == '-' then 0 - DigitsValue(digits) else DigitsValue(digits);
      if InIntRange(v) then Some(v) else None
  }

  /** Go's `strconv.Itoa` on a non-negative value: shortest decimal form. */
  function FormatNat(n: nat): string
  {
    if n < 10 then [DigitChar(n)] else FormatNat(n / 10) + [DigitChar(n % 10)]
  }

  /** Go's `strconv.Itoa`: a `-` for negative values, then the digits. */
  function Itoa(n: int): string
  {
    if n < 0 then "-" + FormatNat(-n) else FormatNat(n)
  }

  /** `FormatNat` writes a non-empty string of digits whose value is `n`. */
  lemma {:induction false} FormatNatValue(n: nat)
    ensures |FormatNat(n)| > 0 && AllDigits(FormatNat(n))
    ensures DigitsValue(FormatNat(n)) == n
    ensures FormatNat(n)[0] != '0' || n == 0
  {
    if n >= 10 {
      FormatNatValue(n / 10);
      var s := FormatNat(n);
      assert s[..|s| - 1] == FormatNat(n / 10);
    }
  }

  /** Every string `Itoa` writes is free of `c` unless `c` is a digit or `-`. */
  lemma ItoaChars(n: int, c: char)
    requires !IsDigit(c) && c != '-'
    ensures c !in Itoa(n)
  {
    FormatNatValue(if n < 0 then -n else n);
    forall i | 0 <= i < |Itoa(n)|
      ensures Itoa(n)[i] != c
    {
      if n < 0 && i > 0 {
        assert Itoa(n)[i] == FormatNat(-n)[i - 1];
      }
    }
  }

  /**
   * Round trip: `Atoi` reads back every `int` that `Itoa` writes, and rejects
   * the decimal form of every integer outside the 64-bit range.
   */
  lemma AtoiItoa(n: int)
    ensures Atoi(Itoa(n)) == if InIntRange(n) then Some(n) else None
  {
    FormatNatValue(if n < 0 then -n else n);
    if n < 0 {
      assert Itoa(n)[1..] == FormatNat(-n);
    }
  }

  /** A leading `+` changes nothing: `Atoi("+" + s) == Atoi(s)` for digits `s`. */
  lemma AtoiPlusSign(s: string)
    requires |s| > 0 && AllDigits(s)
    ensures Atoi("+" + s) == Atoi(s)
  {
  }

  /** Leading zeros do not change the value of a digit string. */
  lemma {:induction false} DigitsValueLeadingZero(s: string)
    requires AllDigits(s)
    ensures AllDigits("0" + s) && DigitsValue("0" + s) == DigitsValue(s)
  {
    if s != [] {
      var t := "0" + s;
      assert t[..|t| - 1] == "0" + s[..|s| - 1];
      DigitsValueLeadingZero(s[..|s| - 1]);
    }
  }

  /** `Atoi` accepts leading zeros: `Atoi("0" + s)` reads the same value as `Atoi(s)`. */
  lemma AtoiLeadingZero(s: string)
    requires |s| > 0 && AllDigits(s)
    ensures Atoi("0" + s) == Atoi(s)
    ensures Atoi("-0" + s) == Atoi("-" + s)
  {
    DigitsValueLeadingZero(s);
    assert ("-0" + s)[1..] == "0" + s;
    assert ("-" + s)[1..] == s;
  }

  /** `-0` is accepted and reads as zero. */
  lemma AtoiMinusZero()
    ensures Atoi("-0") == Some(0)
  {
    assert "-0"[1..] == "0";
    assert DigitsValue("0") == DigitsValue("") * 10 + DigitValue('0');
  }

  /** A digit string that does not start with `0` has a positive value. */
  lemma {:induction false} DigitsValuePositive(d: string)
    requires |d| > 0 && AllDigits(d) && d[0] != '0'
    ensures DigitsValue(d) > 0
  {
    if |d| > 1 {
      DigitsValuePositive(d[..|d| - 1]);
    }
  }

  /** `FormatNat` gives back a digit string without superfluous leading zeros. */
  lemma {:induction false} FormatNatDigitsValue(d: string)
    requires |d| > 0 && AllDigits(d) && (d[0] != '0' || |d| == 1)
    ensures FormatNat(DigitsValue(d)) == d
  {
    if |d| > 1 {
      var init := d[..|d| - 1];
      DigitsValuePositive(init);
      FormatNatDigitsValue(init);
      var v := DigitsValue(d);
      assert v / 10 == DigitsValue(init) && v % 10 == DigitValue(d[|d| - 1]);
      assert DigitChar(v % 10) == d[|d| - 1];
      assert d == init + [d[|d| - 1]];
    } else {
      assert DigitChar(DigitValue(d[0])) == d[0];
    }
  }

  /**
   * The converse of the round trip: text that `Atoi` accepts, written without
   * a `+`, without leading zeros and without `-0`, is exactly `Itoa` of the
   * value read, so the value is the one the digits denote.
   */
  lemma AtoiCanonical(s: string, n: int)
    requires Atoi(s) == Some(n)
    requires s[0] != '+'
    requires s[0] == '-' ==> |s| > 1 && s[1] != '0'
    requires s[0] == '0' ==> |s| == 1
    ensures s == Itoa(n)
  {
    if s[0] == '-' {
      FormatNatDigitsValue(s[1..]);
      DigitsValuePositive(s[1..]);
      assert s == "-" + s[1..];
    } else {
      FormatNatDigitsValue(s);
    }
  }
}
