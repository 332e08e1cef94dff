/** Text: finding a character, printing an integer and reading it back. */
module Text {
  import opened Common

  function IndexOf(s: string, c: char): (i: Option<nat>)
    ensures i.Some? ==> i.value < |s| && s[i.value] == c && c !in s[..i.value]
    ensures i.None? ==> c !in s
  {
    if s == [] then None else if s[0] == c then Some(0) else
    match IndexOf(s[1..], c) case None => None case Some(i) => Some(i + 1)
  }

  lemma {:induction false} IndexOfFirst(a: string, c: char, b: string)
    requires c !in a
    ensures IndexOf(a, c) == None
    ensures IndexOf(a + [c] + b, c) == Some(|a|)
  {
    if a != [] {
      IndexOfFirst(a[1..], c, b);
      assert (a + [c] + b)[1..] == a[1..] + [c] + b;
    }
  }

  function Pow10(n: nat): (p: nat)
    ensures p >= 1
  {
    if n == 0 then 1 else 10 * Pow10(n - 1)
  }

  predicate IsDigit(c: char) {
    '0' <= c <= '9'
  }

  lemma DigitsAre(d: nat)
    requires d < 10
    ensures DigitChar(d) == "0123456789"[d] && IsDigit(DigitChar(d)) && DigitValue(DigitChar(d)) == d
  {
  }

  predicate AllDigits(s: string) {
    forall i :: 0 <= i < |s| ==> IsDigit(s[i])
  }

  function DigitChar(d: nat): char
    requires d < 10
  {
    ('0' as int + d) as char
  }

  function DigitValue(c: char): nat
    requires IsDigit(c)
  {
    c as int - '0' as int
  }

  function Digits(n: nat): string {
    if n < 10 then [DigitChar(n)] else Digits(n / 10) + [DigitChar(n % 10)]
  }

  function Number(s: string): nat
    requires AllDigits(s)
  {
    if s == [] then 0 else 10 * Number(s[..|s| - 1]) + DigitValue(s[|s| - 1])
  }

  function IntString(n: int): string {
    if n < 0 then ['-'] + Digits(-n) else Digits(n)
  }

  lemma {:induction false} NumberOfDigits(n: nat)
    ensures Digits(n) != [] && AllDigits(Digits(n)) && Number(Digits(n)) == n
  {
    if n >= 10 {
      NumberOfDigits(n / 10);
      assert Digits(n)[..|Digits(n)| - 1] == Digits(n / 10);
    } else {
      assert Digits(n)[..0] == [];
    }
  }

  lemma {:induction false} DigitsLength(n: nat, k: nat)
    requires n < Pow10(k + 1)
    ensures |Digits(n)| <= k + 1
  {
    if n >= 10 {
      assert k > 0;
      DigitsLength(n / 10, k - 1);
    }
  }

  lemma NumberLast(s: string, last: char)
    requires AllDigits(s) && IsDigit(last)
    ensures AllDigits(s + [last]) && Number(s + [last]) == 10 * Number(s) + DigitValue(last)
  {
    assert (s + [last])[..|s|] == s;
  }

  lemma Shifted(x: int, p: int, d: int, y: int)
    ensures 10 * (x * p + y) + d == x * (10 * p) + (10 * y + d)
  {
  }

  lemma {:induction false} NumberAppend(a: string, b: string)
    requires AllDigits(a) && AllDigits(b)
    ensures AllDigits(a + b) && Number(a + b) == Number(a) * Pow10(|b|) + Number(b)
  {
    if b == [] {
      assert a + b == a;
    } else {
      var front, last := b[..|b| - 1], b[|b| - 1];
      NumberAppend(a, front);
      assert b == front + [last] && a + b == (a + front) + [last];
      NumberLast(front, last);
      NumberLast(a + front, last);
      Shifted(Number(a), Pow10(|front|), DigitValue(last), Number(front));
    }
  }

  function ZeroString(n: nat): string {
    seq(n, _ => '0')
  }

  lemma {:induction false} LeadingZeros(n: nat, s: string)
    requires AllDigits(s)
    ensures AllDigits(ZeroString(n) + s) && Number(ZeroString(n) + s) == Number(s)
  {
    if n == 0 {
      assert ZeroString(n) + s == s;
    } else {
      LeadingZeros(n - 1, s);
      assert ZeroString(n) + s == "0" + (ZeroString(n - 1) + s);
      NumberAppend("0", ZeroString(n - 1) + s);
      assert "0"[..0] == "";
      assert Number("0") == 0;
    }
  }

  /** An optional sign and at least one digit. */
  function ReadInt(s: string): Option<int> {
    var negative := s != [] && s[0] == '-';
    var signed := s != [] && (s[0] == '-' || s[0] == '+');
    var digits := if signed then s[1..] else s;
    if digits == [] || !AllDigits(digits) then None
    else
      var value: int := Number(digits);
      Some(if negative then -value else value)
  }

  lemma ReadUnsigned(digits: string)
    requires digits != [] && AllDigits(digits)
    ensures ReadInt(digits) == Some(Number(digits))
  {
    assert IsDigit(digits[0]);
  }

  lemma ReadNegative(digits: string)
    requires digits != [] && AllDigits(digits)
    ensures ReadInt(['-'] + digits) == Some(-(Number(digits) as int))
  {
    assert (['-'] + digits)[1..] == digits;
  }

  /** What reads as an integer: digits, at least one, with at most one sign before them. */
  lemma ReadIntMeans(s: string)
    ensures ReadInt(s).Some? <==>
              s != [] && (AllDigits(s) || (|s| > 1 && (s[0] == '+' || s[0] == '-') && AllDigits(s[1..])))
  {
    if s != [] && (s[0] == '+' || s[0] == '-') {
      assert !IsDigit(s[0]);
    }
    hide Number;
  }

  lemma ReadPositive(digits: string)
    requires digits != [] && AllDigits(digits)
    ensures ReadInt(['+'] + digits) == Some(Number(digits))
  {
    assert (['+'] + digits)[1..] == digits;
  }

  lemma IntReadBack(n: int)
    ensures ReadInt(IntString(n)) == Some(n)
  {
    if n < 0 {
      NumberOfDigits(-n);
      ReadNegative(Digits(-n));
    } else {
      NumberOfDigits(n);
      ReadUnsigned(Digits(n));
    }
  }
}
