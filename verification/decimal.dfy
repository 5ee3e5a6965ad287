/** Decimal text of integers, as strconv.Itoa writes it. */
module Decimal {

  function Digit(d: nat): char
    requires d < 10
  {
    "0123456789"[d]
  }

  predicate IsDigit(c: char) {
    '0' <= c <= '9'
  }

  function Digits(n: nat): (s: string)
    ensures |s| > 0 && forall c :: c in s ==> IsDigit(c)
  {
    if n < 10 then [Digit(n)] else Digits(n / 10) + [Digit(n % 10)]
  }

  function Itoa(n: int): (s: string)
    ensures |s| > 0 && forall c :: c in s ==> IsDigit(c) || c == '-'
  {
    if n < 0 then "-" + Digits(-n) else Digits(n)
  }

  lemma DigitInjective(a: nat, b: nat)
    requires a < 10 && b < 10 && Digit(a) == Digit(b)
    ensures a == b
  {
  }

  lemma {:induction false} DigitsInjective(a: nat, b: nat)
    requires Digits(a) == Digits(b)
    ensures a == b
  {
    var s, t := Digits(a), Digits(b);
    if a < 10 && b < 10 {
      assert s[0] == t[0];
      DigitInjective(a, b);
    } else if a >= 10 && b >= 10 {
      assert s[..|s| - 1] == Digits(a / 10) && t[..|t| - 1] == Digits(b / 10);
      assert s[|s| - 1] == Digit(a % 10) && t[|t| - 1] == Digit(b % 10);
      DigitsInjective(a / 10, b / 10);
      DigitInjective(a % 10, b % 10);
    }
  }

  lemma SignShows(n: int)
    ensures Itoa(n)[0] == '-' <==> n < 0
  {
    if n >= 0 {
      assert Digits(n)[0] in Digits(n);
    }
  }

  lemma ItoaInjective(a: int, b: int)
    requires Itoa(a) == Itoa(b)
    ensures a == b
  {
    var s, t := Itoa(a), Itoa(b);
    SignShows(a);
    SignShows(b);
    if a < 0 && b < 0 {
      assert s[1..] == Digits(-a) && t[1..] == Digits(-b);
      DigitsInjective(-a, -b);
    } else if a >= 0 && b >= 0 {
      DigitsInjective(a, b);
    }
  }

  function Read(s: string): int {
    if s == [] then 0 else Read(s[..|s| - 1]) * 10 + (s[|s| - 1] as int - '0' as int)
  }

  /** Read as a decimal number the text is the number, without a leading zero unless it is 0. */
  lemma {:induction false} ReadsBack(n: nat)
    ensures Read(Digits(n)) == n && (n > 0 ==> Digits(n)[0] != '0')
  {
    assert forall d: nat :: d < 10 ==> Digit(d) as nat == '0' as nat + d;
    if n >= 10 {
      ReadsBack(n / 10);
      assert Digits(n)[..|Digits(n)| - 1] == Digits(n / 10);
    }
  }

  /** Text of n is no longer than k digits below 10 to the k. */
  function PowerOfTen(k: nat): (p: nat)
    ensures p > 0
  {
    if k == 0 then 1 else 10 * PowerOfTen(k - 1)
  }

  lemma {:induction false} DigitsShort(n: nat, k: nat)
    requires k > 0 && n < PowerOfTen(k)
    ensures |Digits(n)| <= k
  {
    if n >= 10 {
      DigitsShort(n / 10, k - 1);
    }
  }

  // ----- Numbers behind a separator -----

  lemma EndsInSeparator(sep: char, a: string, x: string)
    requires sep !in x
    ensures var s := a + [sep] + x; s[|s| - 1] == sep <==> x == []
  {
    if x != [] {
      assert x[|x| - 1] in x;
    }
  }

  lemma DropLast(sep: char, a: string, x: string)
    requires x != [] && sep !in x
    ensures var s := a + [sep] + x; s[..|s| - 1] == a + [sep] + x[..|x| - 1] && sep !in x[..|x| - 1]
  {
  }

  /** The last separator splits a text in one way only. */
  lemma {:induction false} LastSeparatorSplits(sep: char, a: string, b: string, x: string, y: string)
    requires sep !in x && sep !in y && a + [sep] + x == b + [sep] + y
    ensures a == b && x == y
    decreases |x|
  {
    var s, t := a + [sep] + x, b + [sep] + y;
    if x == [] || y == [] {
      EndsInSeparator(sep, a, x);
      EndsInSeparator(sep, b, y);
      assert a == s[..|a|] && b == t[..|b|];
    } else {
      DropLast(sep, a, x);
      DropLast(sep, b, y);
      assert s[|s| - 1] == x[|x| - 1] && t[|t| - 1] == y[|y| - 1];
      LastSeparatorSplits(sep, a, b, x[..|x| - 1], y[..|y| - 1]);
    }
  }
}
