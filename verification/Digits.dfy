/** `itoa` of internal/session/store.go: digits collected low to high, then reversed in place. */
module Digits {
  import opened Bytes

  /** One digit, `byte('0' + n%10)`. */
  function DigitChar(d: nat): (c: char)
    requires d < 10
    ensures IsDigit(c) && DigitValue(c) == d
  {
    '0' + d as char
  }

  predicate IsDigit(c: char) { '0' <= c <= '9' }

  function DigitValue(c: char): (d: nat)
    requires IsDigit(c)
    ensures d < 10
  {
    c as int - '0' as int
  }

  predicate AllDigits(s: Bytes) {
    forall i :: 0 <= i < |s| ==> IsDigit(s[i])
  }

  /** The number a digit string denotes. */
  function Value(s: Bytes): nat
    requires AllDigits(s)
  {
    if s == "" then 0 else Value(s[..|s| - 1]) * 10 + DigitValue(s[|s| - 1])
  }

  /** A decimal numeral without superfluous zeros. */
  predicate IsNumeral(s: Bytes) {
    |s| > 0 && AllDigits(s) && (s[0] == '0' ==> |s| == 1)
  }

  /** The canonical numeral of `n`. */
  function Decimal(n: nat): (s: Bytes)
    ensures IsNumeral(s) && Value(s) == n
    ensures n > 0 ==> s[0] != '0'
  {
    if n < 10 then
      var s := [DigitChar(n)];
      assert s[..0] == "";
      s
    else
      var s := Decimal(n / 10) + [DigitChar(n % 10)];
      assert s[..|s| - 1] == Decimal(n / 10);
      s
  }

  lemma {:induction false} NumeralPositive(s: Bytes)
    requires IsNumeral(s) && s[0] != '0'
    ensures Value(s) > 0
  {
    if |s| == 1 {
      assert s[..0] == "";
    } else {
      NumeralPositive(s[..|s| - 1]);
    }
  }

  /** A number has only one canonical numeral. */
  lemma {:induction false} NumeralUnique(s: Bytes)
    requires IsNumeral(s)
    ensures s == Decimal(Value(s))
  {
    var init, last := s[..|s| - 1], s[|s| - 1];
    if |s| == 1 {
      assert init == "";
    } else {
      assert s[0] == init[0] && init[0] != '0';
      NumeralPositive(init);
      NumeralUnique(init);
      assert Value(s) / 10 == Value(init) && Value(s) % 10 == DigitValue(last);
      assert s == init + [last];
    }
  }

  function Pow10(k: nat): (p: nat)
    ensures p >= 1
  {
    if k == 0 then 1 else 10 * Pow10(k - 1)
  }

  /** The numeral of `n` has at most `k` digits exactly when n < 10^k. */
  lemma {:induction false} DecimalLength(n: nat, k: nat)
    requires k >= 1
    ensures |Decimal(n)| <= k <==> n < Pow10(k)
  {
    if k == 1 {
      assert Pow10(1) == 10 * Pow10(0);
    } else if n < 10 {
      PowAtLeastTen(k);
    } else {
      DecimalLength(n / 10, k - 1);
    }
  }

  lemma {:induction false} PowAtLeastTen(k: nat)
    requires k >= 1
    ensures Pow10(k) >= 10
  {
    if k > 1 { PowAtLeastTen(k - 1); }
  }

  function Reversed(s: Bytes): (r: Bytes)
    ensures |r| == |s|
    ensures forall i :: 0 <= i < |s| ==> r[i] == s[|s| - 1 - i]
  {
    if s == "" then "" else Reversed(s[1..]) + [s[0]]
  }

  /** The digits of `n` from low to high, without leading zeros. */
  function LowFirst(n: nat): Bytes {
    if n == 0 then "" else [DigitChar(n % 10)] + LowFirst(n / 10)
  }

  lemma {:induction false} LowFirstReversed(n: nat)
    requires n > 0
    ensures Reversed(LowFirst(n)) == Decimal(n)
  {
    if n < 10 {
      assert LowFirst(n / 10) == "";
      assert LowFirst(n) == [DigitChar(n)];
    } else {
      LowFirstReversed(n / 10);
      assert LowFirst(n)[1..] == LowFirst(n / 10);
    }
  }

  /** The digit loop of `itoa`. */
  method CollectDigits(n: nat) returns (buf: Bytes)
    ensures buf == LowFirst(n)
  {
    buf := "";
    var m := n;
    while m > 0
      invariant buf + LowFirst(m) == LowFirst(n)
    {
      assert LowFirst(m) == [DigitChar(m % 10)] + LowFirst(m / 10);
      assert buf + LowFirst(m) == buf + [DigitChar(m % 10)] + LowFirst(m / 10);
      buf := buf + [DigitChar(m % 10)];
      m := m / 10;
    }
  }

  /** The swap loop of `itoa`. */
  method ReverseBuffer(low: Bytes) returns (buf: Bytes)
    ensures buf == Reversed(low)
  {
    buf := low;
    var i, j := 0, |buf| - 1;
    while i < j
      invariant 0 <= i <= |buf| == |low| && j == |buf| - 1 - i && i <= j + 1
      invariant forall k :: 0 <= k < |buf| && (k < i || j < k) ==> buf[k] == low[|buf| - 1 - k]
      invariant forall k :: i <= k <= j ==> buf[k] == low[k]
    {
      buf := buf[i := buf[j]][j := buf[i]];
      i, j := i + 1, j - 1;
    }
  }

  /** `itoa`; a negative argument enters neither loop and yields the empty string. */
  method Itoa(n: int) returns (r: Bytes)
    ensures n >= 0 ==> r == Decimal(n)
    ensures n < 0 ==> r == ""
  {
    if n == 0 { return "0"; }
    if n < 0 { return ""; }
    var low := CollectDigits(n);
    r := ReverseBuffer(low);
    LowFirstReversed(n);
  }
}
