/** Decimal numerals as Go's %d and strconv.ParseInt have them. */
module Decimals {
  import opened Wrappers

  const MAX_INT64: int := 0x7fff_ffff_ffff_ffff
  const MIN_INT64: int := -0x8000_0000_0000_0000

  predicate IsInt64(i: int) {
    MIN_INT64 <= i <= MAX_INT64
  }

  /** Two's-complement wrap-around of 64-bit arithmetic. */
  function Wrap64(i: int): int {
    if IsInt64(i) then i else (i - MIN_INT64) % 0x1_0000_0000_0000_0000 + MIN_INT64
  }

  lemma WrapKeeps(i: int)
    ensures IsInt64(Wrap64(i)) && (IsInt64(i) ==> Wrap64(i) == i)
  {
  }

  predicate IsDigit(c: char) {
    '0' <= c <= '9'
  }

  predicate AllDigits(s: string) {
    forall i :: 0 <= i < |s| ==> IsDigit(s[i])
  }

  function Digit(d: nat): (c: char)
    requires d < 10
    ensures IsDigit(c) && c as int - '0' as int == d
  {
    ('0' as int + d) as char
  }

  function Numeral(n: nat): string {
    if n < 10 then [Digit(n)] else Numeral(n / 10) + [Digit(n % 10)]
  }

  function Value(s: string): nat
    requires AllDigits(s)
  {
    if s == [] then 0 else Value(s[..|s| - 1]) * 10 + (s[|s| - 1] as int - '0' as int)
  }

  lemma {:induction false} NumeralValue(n: nat)
    ensures AllDigits(Numeral(n)) && Numeral(n) != [] && Value(Numeral(n)) == n
    decreases n
  {
    if n < 10 {
      assert Numeral(n)[..0] == [];
    } else {
      NumeralValue(n / 10);
      assert Numeral(n)[..|Numeral(n)| - 1] == Numeral(n / 10);
    }
  }

  lemma NumeralsDiffer(m: nat, n: nat)
    requires m != n
    ensures Numeral(m) != Numeral(n)
  {
    NumeralValue(m);
    NumeralValue(n);
  }

  function PowerOfTen(k: nat): nat {
    if k == 0 then 1 else 10 * PowerOfTen(k - 1)
  }

  lemma {:induction false} NumeralLength(n: nat, k: nat)
    requires k >= 1 && n < PowerOfTen(k)
    ensures |Numeral(n)| <= k
    decreases k
  {
    if n >= 10 {
      assert PowerOfTen(1) == 10;
      assert n / 10 < PowerOfTen(k - 1);
      NumeralLength(n / 10, k - 1);
    }
  }

  lemma Int64Length(n: nat)
    requires n <= MAX_INT64
    ensures |Numeral(n)| <= 19
  {
    assert PowerOfTen(5) == 100_000;
    assert PowerOfTen(10) == 10_000_000_000;
    assert PowerOfTen(15) == 1_000_000_000_000_000;
    NumeralLength(n, 19);
  }

  function Decimal(i: int): string {
    if i < 0 then "-" + Numeral(-i) else Numeral(i)
  }

  /** An optional sign and at least one digit, within 64 bits. */
  function ParseInt(s: string): Option<int> {
    var signed := s != [] && (s[0] == '-' || s[0] == '+');
    var digits := if signed then s[1..] else s;
    if digits == [] || !AllDigits(digits) then None
    else
      var v := if signed && s[0] == '-' then 0 - Value(digits) as int else Value(digits) as int;
      if IsInt64(v) then Some(v) else None
  }

  lemma ParseIntDecimal(i: int)
    requires IsInt64(i)
    ensures ParseInt(Decimal(i)) == Some(i)
  {
    NumeralValue(if i < 0 then -i else i);
    if i < 0 {
      assert Decimal(i)[1..] == Numeral(-i);
    } else {
      assert IsDigit(Decimal(i)[0]);
    }
  }

  /** Some numerals, written out. */
  lemma NumeralsWrittenOut()
    ensures Numeral(0) == "0" && Numeral(7) == "7" && Numeral(10) == "10" && Numeral(65536) == "65536"
    ensures Decimal(-42) == "-42" && Decimal(42) == "42"
  {
    assert Numeral(42) == Numeral(4) + "2";
    assert Numeral(65) == Numeral(6) + "5";
    assert Numeral(655) == "655" && Numeral(6553) == "6553";
  }

  /** Some texts that are and are not integers. */
  lemma IntegersWrittenOut()
    ensures ParseInt("7") == Some(7) && ParseInt("-7") == Some(-7) && ParseInt("+7") == Some(7)
    ensures ParseInt("") == None && ParseInt("-") == None && ParseInt("7a") == None && ParseInt("1-2") == None
  {
    var seven := "7";
    assert seven[..0] == [];
    assert Value(seven) == 7;
    assert "-7"[1..] == seven && "+7"[1..] == seven && "-"[1..] == [];
    assert !IsDigit("7a"[1]) && !IsDigit("1-2"[1]);
  }
}
