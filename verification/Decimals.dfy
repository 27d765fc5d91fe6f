/** Reading decimal integers the way `strconv.Atoi` and `strconv.ParseInt` do. */
module Decimals {
  import opened Common

  predicate IsDigit(c: char) {
    '0' <= c <= '9'
  }

  predicate AllDigits(s: string) {
    forall i :: 0 <= i < |s| ==> IsDigit(s[i])
  }

  /** The number the characters of `s` from `lo` up to `hi` stand for. */
  function Digits(s: string, lo: nat, hi: nat): Option<nat>
    requires lo <= hi <= |s|
  {
    if lo == hi then Some(0)
    else
      var rest, c := Digits(s, lo, hi - 1), s[hi - 1];
      if rest.None? || !IsDigit(c) then None else Some(rest.value * 10 + (c - '0') as nat)
  }

  const INT_LIMIT := 0x8000_0000_0000_0000

  /** `strconv.Atoi`: an optional sign, at least one digit, and a value that fits 64 bits. */
  function Atoi(s: string): Option<int> {
    var start := if |s| > 0 && (s[0] == '-' || s[0] == '+') then 1 else 0;
    var d := Digits(s, start, |s|);
    if start == |s| || d.None? then None
    else
      var n: int := d.value;
      var v := if s[0] == '-' then -n else n;
      if -INT_LIMIT <= v < INT_LIMIT then Some(v) else None
  }

  /** A number's decimal notation. */
  function Decimal(n: nat): string {
    (if n < 10 then "" else Decimal(n / 10)) + [DigitOf(n % 10)]
  }

  function DigitOf(d: nat): (c: char)
    requires d < 10
    ensures IsDigit(c) && (c - '0') as nat == d
  {
    ('0' as int + d) as char
  }

  /** What stands after the digits does not matter. */
  lemma {:induction false} DigitsPrefix(s: string, t: string, hi: nat)
    requires hi <= |s|
    ensures Digits(s + t, 0, hi) == Digits(s, 0, hi)
  {
    if hi > 0 {
      DigitsPrefix(s, t, hi - 1);
      assert (s + t)[hi - 1] == s[hi - 1];
    }
  }

  /** A numeral is digits, at least one of them, and is worth what it was made from. */
  lemma {:induction false} DecimalDigits(n: nat)
    ensures var s := Decimal(n); |s| > 0 && AllDigits(s) && Digits(s, 0, |s|) == Some(n)
  {
    var front, last := if n < 10 then "" else Decimal(n / 10), [DigitOf(n % 10)];
    if n >= 10 {
      DecimalDigits(n / 10);
    }
    assert Digits(front, 0, |front|) == Some(n / 10);
    DigitsPrefix(front, last, |front|);
    assert (front + last)[|front|] == DigitOf(n % 10);
    assert n / 10 * 10 + n % 10 == n;
  }

  /** Every count that fits 64 bits is read back from its notation. */
  lemma AtoiDecimal(n: nat)
    requires n < INT_LIMIT
    ensures Atoi(Decimal(n)) == Some(n) && Decimal(n) != "off"
  {
    DecimalDigits(n);
    assert IsDigit(Decimal(n)[0]);
  }

  lemma {:induction false} DigitsAt(s: string, lo: nat, n: nat, hi: nat)
    requires lo + n == hi <= |s|
    ensures Digits(s, lo, hi) == Digits(s[lo..], 0, n)
    decreases n
  {
    if n > 0 {
      DigitsAt(s, lo, n - 1, hi - 1);
      assert s[lo..][n - 1] == s[hi - 1];
    }
  }

  /** A sign in front is read as one, and a count that does not fit 64 bits is refused. */
  lemma SignedDecimal(n: nat)
    ensures Atoi(Decimal(n)) == if n < INT_LIMIT then Some(n) else None
    ensures Atoi("+" + Decimal(n)) == if n < INT_LIMIT then Some(n) else None
    ensures n <= INT_LIMIT ==> Atoi("-" + Decimal(n)).Some? && Atoi("-" + Decimal(n)).value + n == 0
    ensures n > INT_LIMIT ==> Atoi("-" + Decimal(n)).None?
  {
    DecimalDigits(n);
    Signed(Decimal(n), n);
  }

  lemma Signed(d: string, n: nat)
    requires |d| > 0 && IsDigit(d[0]) && Digits(d, 0, |d|) == Some(n)
    ensures Atoi(d) == if n < INT_LIMIT then Some(n) else None
    ensures Atoi("+" + d) == if n < INT_LIMIT then Some(n) else None
    ensures n <= INT_LIMIT ==> Atoi("-" + d).Some? && Atoi("-" + d).value + n == 0
    ensures n > INT_LIMIT ==> Atoi("-" + d).None?
  {
    AfterSign('+', d, n);
    AfterSign('-', d, n);
  }

  lemma AfterSign(sign: char, d: string, n: nat)
    requires Digits(d, 0, |d|) == Some(n)
    ensures Digits([sign] + d, 1, |d| + 1) == Some(n)
  {
    DigitsAt([sign] + d, 1, |d|, |d| + 1);
    assert ([sign] + d)[1..] == d;
  }

  lemma {:induction false} DigitsNeedDigits(s: string, lo: nat, hi: nat)
    requires lo <= hi <= |s|
    ensures Digits(s, lo, hi).Some? <==> forall i :: lo <= i < hi ==> IsDigit(s[i])
    decreases hi
  {
    if lo < hi {
      DigitsNeedDigits(s, lo, hi - 1);
    }
  }

  /** Nothing is read from text without a digit, or with anything but digits after its sign. */
  lemma OnlyDigitsAreRead(s: string)
    requires var start := if |s| > 0 && (s[0] == '-' || s[0] == '+') then 1 else 0;
             start == |s| || exists i :: start <= i < |s| && !IsDigit(s[i])
    ensures Atoi(s).None?
  {
    var start := if |s| > 0 && (s[0] == '-' || s[0] == '+') then 1 else 0;
    DigitsNeedDigits(s, start, |s|);
  }
}
