/** Decimal numerals, as Python's `str` writes them and a Verilog literal reads them. */
module Decimal {
  import opened Options
  import opened Hex

  predicate IsDigit(c: char) {
    '0' <= c <= '9'
  }

  function DigitChar(d: nat): (c: char)
    requires d < 10
    ensures IsDigit(c)
  {
    '0' + d as char
  }

  function DigitValue(c: char): (d: nat)
    requires IsDigit(c)
    ensures d < 10
  {
    (c - '0') as nat
  }

  predicate AllDigits(s: string) {
    forall i | 0 <= i < |s| :: IsDigit(s[i])
  }

  /** `str(n)` for a natural number. */
  function Digits(n: nat): (s: string)
    ensures s != [] && AllDigits(s)
  {
    if n < 10 then [DigitChar(n)] else Digits(n / 10) + [DigitChar(n % 10)]
  }

  /** `str(n)` for an integer. */
  function Str(n: int): (s: string)
    ensures s != []
  {
    if n < 0 then "-" + Digits(-n) else Digits(n)
  }

  /** The value of a string of digits in a given base. */
  function ReadDigits(base: nat, s: string): nat
    requires AllDigits(s)
  {
    if s == [] then 0
    else ReadDigits(base, s[..|s| - 1]) * base + DigitValue(s[|s| - 1])
  }

  predicate IsNumeral(s: string) {
    (s != [] && AllDigits(s)) || (|s| > 1 && s[0] == '-' && AllDigits(s[1..]))
  }

  function NumeralValue(s: string): int
    requires IsNumeral(s)
  {
    if s[0] == '-' then 0 - ReadDigits(10, s[1..]) else ReadDigits(10, s)
  }

  lemma {:induction false} ReadsBack(n: nat)
    ensures ReadDigits(10, Digits(n)) == n
  {
    if n >= 10 {
      ReadsBack(n / 10);
    } else {
      assert Digits(n)[..0] == [];
    }
  }

  lemma {:induction false} StrReadsBack(n: int)
    ensures IsNumeral(Str(n)) && NumeralValue(Str(n)) == n
  {
    ReadsBack(if n < 0 then -n else n);
    if n < 0 {
      assert Str(n)[1..] == Digits(-n);
    } else {
      assert Digits(n)[0] != '-';
    }
  }

  lemma Scales(m: nat, a: nat, b: nat)
    requires a <= b
    ensures m * a <= m * b
  {
  }

  lemma {:induction false} Inflates(base: nat, n: nat)
    requires base > 10
    ensures ReadDigits(base, Digits(n)) >= n
    ensures n >= 10 ==> ReadDigits(base, Digits(n)) > n
  {
    if n >= 10 {
      Inflates(base, n / 10);
      var m := ReadDigits(base, Digits(n / 10));
      Scales(m, 11, base);
    } else {
      assert Digits(n)[..0] == [];
    }
  }

  lemma {:induction false} Deflates(base: nat, n: nat)
    requires base < 10
    ensures ReadDigits(base, Digits(n)) <= n
    ensures n >= 10 ==> ReadDigits(base, Digits(n)) < n
  {
    if n >= 10 {
      Deflates(base, n / 10);
      var m := ReadDigits(base, Digits(n / 10));
      Scales(m, base, 9);
    } else {
      assert Digits(n)[..0] == [];
    }
  }

  /** What a reader of a based literal makes of its digits: nothing if one of them is not below the base. */
  function ReadIn(base: nat, s: string): Option<nat> {
    if s == [] then Some(0)
    else
      var m :- ReadIn(base, s[..|s| - 1]);
      var d :- HexDigit(s[|s| - 1]);
      if d < base then Some(m * base + d) else None
  }

  lemma {:induction false} ReadInValue(base: nat, s: string)
    requires AllDigits(s)
    ensures ReadIn(base, s).Some? ==> ReadIn(base, s).value == ReadDigits(base, s)
    ensures base >= 10 ==> ReadIn(base, s).Some?
  {
    if s != [] {
      ReadInValue(base, s[..|s| - 1]);
      assert HexDigit(s[|s| - 1]) == Some(DigitValue(s[|s| - 1]));
    }
  }

  /** Writing a number in decimal and reading the digits in another base gives the number back
      only when it is a single digit of that base. */
  lemma RebasedValue(base: nat, n: nat)
    ensures ReadIn(base, Digits(n)) == Some(n) <==> base == 10 || (n < 10 && n < base)
  {
    ReadInValue(base, Digits(n));
    ReadsBack(n);
    if base > 10 {
      Inflates(base, n);
    } else if base < 10 {
      Deflates(base, n);
    }
    if n < 10 {
      assert Digits(n)[..0] == [] && ReadIn(base, []) == Some(0);
      assert HexDigit(DigitChar(n)) == Some(n);
    }
  }
}
