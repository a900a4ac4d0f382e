/** Decimal text of 64-bit integers, as the Go `strconv` package reads and writes it. */
module Numerals {
  import opened Records

  const MAX_INT64: int := 0x7FFF_FFFF_FFFF_FFFF
  const MIN_INT64: int := -0x8000_0000_0000_0000

  predicate IsDigit(c: char) { '0' <= c <= '9' }

  predicate AllDigits(s: string) {
    forall i :: 0 <= i < |s| ==> IsDigit(s[i])
  }

  function Digit(d: int): (c: char)
    requires 0 <= d < 10
    ensures IsDigit(c) && c as int == '0' as int + d
  {
    ('0' as int + d) as char
  }

  function DigitsValue(s: string): nat
    requires AllDigits(s)
  {
    if s == "" then 0
    else DigitsValue(s[..|s| - 1]) * 10 + (s[|s| - 1] as int - '0' as int)
  }

  function NatText(n: nat): (s: string)
    ensures s != "" && AllDigits(s)
  {
    if n < 10 then [Digit(n)] else NatText(n / 10) + [Digit(n % 10)]
  }

  function IntText(n: int): string {
    if n < 0 then "-" + NatText(-n) else NatText(n)
  }

  /** Base-10 `ParseInt` with 64 bits: an optional sign, at least one digit, and a value in range. */
  function ParseInt(s: string): Option<int> {
    if s == "" then None else
      var negative := s[0] == '-';
      var body := if negative || s[0] == '+' then s[1..] else s;
      if body == "" || !AllDigits(body) then None else
        var magnitude: int := DigitsValue(body);
        var v := if negative then -magnitude else magnitude;
        if MIN_INT64 <= v <= MAX_INT64 then Some(v) else None
  }

  lemma {:induction false} DigitsOfNat(n: nat)
    ensures DigitsValue(NatText(n)) == n
  {
    var s := NatText(n);
    if n < 10 {
      assert s[..|s| - 1] == "";
    } else {
      DigitsOfNat(n / 10);
      assert s[..|s| - 1] == NatText(n / 10);
    }
  }

  /** Reading back what was written gives the number again. */
  lemma ParseIntText(n: int)
    requires MIN_INT64 <= n <= MAX_INT64
    ensures ParseInt(IntText(n)) == Some(n)
  {
    var s := IntText(n);
    if n < 0 {
      DigitsOfNat(-n);
      assert s[1..] == NatText(-n);
    } else {
      DigitsOfNat(n);
      assert IsDigit(s[0]);
    }
  }

  lemma NatTextInjective(m: nat, n: nat)
    requires NatText(m) == NatText(n)
    ensures m == n
  {
    DigitsOfNat(m);
    DigitsOfNat(n);
  }

  // ---- turns ----------------------------------------------------------------------------------

  /** How many turns of at most `m` it takes to get through `n`, where even nothing takes one. */
  function Rounds(n: nat, m: nat): (r: nat)
    requires m >= 1
    ensures r >= 1
  {
    if n <= m then 1 else 1 + Rounds(n - m, m)
  }

  lemma {:induction false} RoundsGrow(a: nat, b: nat, m: nat)
    requires m >= 1 && a <= b
    ensures Rounds(a, m) <= Rounds(b, m)
  {
    if a > m { RoundsGrow(a - m, b - m, m); }
  }

  lemma DivideOnce(a: nat, m: nat)
    requires m >= 1
    ensures (a + m) / m == a / m + 1
  {
    var q, r := a / m, a % m;
    assert a + m == (q + 1) * m + r;
    QuotientIs(a + m, m, q + 1, r);
  }

  lemma DivideSmall(n: nat, m: nat)
    requires m >= 1 && n <= m
    ensures n > 0 ==> (n + m - 1) / m == 1
  {
    if n > 0 { QuotientIs(n + m - 1, m, 1, n - 1); }
  }

  lemma QuotientIs(a: nat, m: nat, q: nat, r: nat)
    requires r < m && a == q * m + r
    ensures a / m == q
  {
    var d := a / m - q;
    assert d * m == r - a % m;
    assert d >= 1 ==> d * m >= m;
    assert d <= -1 ==> d * m + m <= 0;
  }

  lemma {:induction false} RoundsCeiling(n: nat, m: nat)
    requires m >= 1
    ensures Rounds(n, m) == if n == 0 then 1 else (n + m - 1) / m
  {
    if n > m {
      RoundsCeiling(n - m, m);
      DivideOnce(n - 1, m);
    } else {
      DivideSmall(n, m);
    }
  }
}
