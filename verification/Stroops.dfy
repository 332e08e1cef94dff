/** Stroop amounts as text: seven decimals, trailing zeros dropped. */
module Stroops {
  import opened Common
  import opened Text

  const STROOPS_PER_XLM := 10_000_000

  /** The source's division truncates towards zero. */
  function Quotient(n: int): int {
    if n < 0 then -(-n / STROOPS_PER_XLM) else n / STROOPS_PER_XLM
  }

  function Remainder(n: int): int {
    if n < 0 then -(-n % STROOPS_PER_XLM) else n % STROOPS_PER_XLM
  }

  function PadStart(s: string): string {
    if |s| >= 7 then s else ZeroString(7 - |s|) + s
  }

  function StripZeros(s: string): string {
    if s != [] && s[|s| - 1] == '0' then StripZeros(s[..|s| - 1]) else s
  }

  function Fraction(n: int): string {
    StripZeros(PadStart(IntString(Remainder(n))))
  }

  function Xlm(n: int): string {
    var fraction := Fraction(n);
    if fraction != [] then IntString(Quotient(n)) + ['.'] + fraction else IntString(Quotient(n))
  }

  function Format(n: int): string {
    Xlm(n) + " XLM"
  }

  // ── Reading it back ───────────────────────────────────────────────────────

  predicate IsFraction(s: string) {
    0 < |s| <= 7 && AllDigits(s)
  }

  /** The stroops in a decimal fraction of an XLM. */
  function Scaled(fraction: string): int
    requires AllDigits(fraction) && |fraction| <= 7
  {
    LeadingZeros(7 - |fraction|, []);
    NumberAppend(fraction, ZeroString(7 - |fraction|));
    Number(fraction + ZeroString(7 - |fraction|))
  }

  /** An exact decimal amount in XLM with at most seven decimals. */
  function ReadXlm(body: string): Option<int> {
    match IndexOf(body, '.')
    case None =>
      (match ReadInt(body) case None => None case Some(whole) => Some(whole * STROOPS_PER_XLM))
    case Some(dot) =>
      match ReadInt(body[..dot])
      case None => None
      case Some(whole) =>
        if !IsFraction(body[dot + 1..]) then None else
        var part := Scaled(body[dot + 1..]);
        Some(whole * STROOPS_PER_XLM + if body[0] == '-' then -part else part)
  }

  function Read(text: string): Option<int> {
    if |text| < 4 || text[|text| - 4..] != " XLM" then None else ReadXlm(text[..|text| - 4])
  }

  /** What is stripped is exactly the trailing zeros. */
  lemma {:induction false} Stripped(s: string)
    ensures |StripZeros(s)| <= |s| && StripZeros(s) + ZeroString(|s| - |StripZeros(s)|) == s
    ensures StripZeros(s) != [] ==> StripZeros(s)[|StripZeros(s)| - 1] != '0'
  {
    if s != [] && s[|s| - 1] == '0' {
      var front := s[..|s| - 1];
      Stripped(front);
      assert s == front + "0";
      var n := |front| - |StripZeros(s)|;
      assert ZeroString(n + 1) == ZeroString(n) + "0";
    }
  }

  lemma PaddedRemainder(r: nat)
    requires r < STROOPS_PER_XLM
    ensures var p := PadStart(Digits(r)); |p| == 7 && AllDigits(p) && Number(p) == r
  {
    assert Pow10(3) == 1000;
    assert Pow10(5) == 100_000;
    assert Pow10(7) == 100 * Pow10(5);
    DigitsLength(r, 6);
    NumberOfDigits(r);
    LeadingZeros(7 - |Digits(r)|, Digits(r));
  }

  lemma {:induction false} ZerosStripped(n: nat)
    ensures StripZeros(ZeroString(n)) == []
  {
    if n > 0 {
      ZerosStripped(n - 1);
      assert ZeroString(n)[..n - 1] == ZeroString(n - 1);
    }
  }

  lemma {:induction false} NonZeroStays(s: string, k: nat)
    requires k < |s| && s[k] != '0'
    ensures k < |StripZeros(s)| && StripZeros(s)[k] == s[k]
  {
    if s[|s| - 1] == '0' {
      NonZeroStays(s[..|s| - 1], k);
    }
  }

  lemma ZeroDigits(s: string)
    requires AllDigits(s) && StripZeros(s) == []
    ensures Number(s) == 0
  {
    Stripped(s);
    LeadingZeros(|s|, []);
    assert ZeroString(|s|) + [] == s;
  }

  /** The fraction has one to seven digits, never ends in 0, and is absent exactly for whole amounts. */
  lemma FractionCanonical(n: nat)
    ensures var f := Fraction(n);
      && |f| <= 7 && AllDigits(f) && Scaled(f) == n % STROOPS_PER_XLM
      && (f != [] ==> f[|f| - 1] != '0')
      && (f == [] <==> n % STROOPS_PER_XLM == 0)
  {
    var r := n % STROOPS_PER_XLM;
    var padded := PadStart(Digits(r));
    PaddedRemainder(r);
    Stripped(padded);
    assert AllDigits(padded) && Fraction(n) == padded[..|Fraction(n)|];
    if Fraction(n) == [] {
      ZeroDigits(padded);
    }
    if r == 0 {
      assert padded == ZeroString(6) + "0" == ZeroString(7);
      ZerosStripped(7);
    }
  }

  /** A negative remainder prints its own minus sign inside the fraction. */
  lemma NegativeFraction(n: int)
    requires n < 0 && n % STROOPS_PER_XLM != 0
    ensures Fraction(n) != [] && !AllDigits(Fraction(n))
  {
    var text := IntString(Remainder(n));
    var padded := PadStart(text);
    var at := |padded| - |text|;
    assert padded[at] == '-';
    NonZeroStays(padded, at);
  }

  lemma SplitText(whole: string, fraction: string)
    requires '.' !in whole
    ensures var t := whole + ['.'] + fraction;
      IndexOf(t, '.') == Some(|whole|) && t[..|whole|] == whole && t[|whole| + 1..] == fraction
  {
    IndexOfFirst(whole, '.', fraction);
  }

  lemma ReadBackWhole(n: int)
    requires n % STROOPS_PER_XLM == 0
    ensures ReadXlm(Xlm(n)) == Some(n)
  {
    WholeHasNoFraction(n);
    NoDot(Quotient(n));
    IndexOfFirst(IntString(Quotient(n)), '.', []);
    IntReadBack(Quotient(n));
    WholeQuotient(n);
  }

  lemma WholeHasNoFraction(n: int)
    requires n % STROOPS_PER_XLM == 0
    ensures Fraction(n) == []
  {
    assert Remainder(n) == 0;
    assert PadStart(IntString(0)) == ZeroString(6) + "0" == ZeroString(7);
    ZerosStripped(7);
  }

  lemma WholeQuotient(n: int)
    requires n % STROOPS_PER_XLM == 0
    ensures Quotient(n) * STROOPS_PER_XLM == n
  {
  }

  lemma ReadBackPart(n: nat)
    requires n % STROOPS_PER_XLM != 0
    ensures ReadXlm(Xlm(n)) == Some(n)
  {
    var whole := IntString(Quotient(n));
    IntReadBack(Quotient(n));
    NoDot(Quotient(n));
    SplitText(whole, Fraction(n));
    FractionCanonical(n);
    NumberOfDigits(Quotient(n));
    assert Xlm(n)[0] == whole[0] && IsDigit(whole[0]);
  }

  lemma GarbledNegative(n: int)
    requires n < 0 && n % STROOPS_PER_XLM != 0
    ensures ReadXlm(Xlm(n)) == None
  {
    NoDot(Quotient(n));
    SplitText(IntString(Quotient(n)), Fraction(n));
    NegativeFraction(n);
  }

  /** Reading the text back gives the amount exactly when it is not negative, or is
      a whole number of XLM. */
  lemma ReadBack(n: int)
    ensures Read(Format(n)) == if n >= 0 || n % STROOPS_PER_XLM == 0 then Some(n) else None
  {
    var t := Format(n);
    assert t[|t| - 4..] == " XLM" && t[..|t| - 4] == Xlm(n);
    if n % STROOPS_PER_XLM == 0 {
      ReadBackWhole(n);
    } else if n >= 0 {
      ReadBackPart(n);
    } else {
      GarbledNegative(n);
    }
  }

  lemma NoDot(n: int)
    ensures '.' !in IntString(n) && IntString(n) != []
  {
    if n < 0 {
      NumberOfDigits(-n);
    } else {
      NumberOfDigits(n);
    }
  }

  /** The text of an amount that is not negative: the XLM, a point and the fraction unless it
      is zero, and the unit; ten million stroops make one XLM. */
  lemma TextOfAmount(n: nat)
    ensures Format(n) == if n % 10_000_000 == 0 then Digits(n / 10_000_000) + " XLM"
                         else Digits(n / 10_000_000) + "." + Fraction(n) + " XLM"
  {
    FractionCanonical(n);
  }

  lemma FormatInjective(m: int, n: int)
    requires m >= 0 || m % STROOPS_PER_XLM == 0
    requires Format(m) == Format(n)
    ensures m == n
  {
    ReadBack(m);
    ReadBack(n);
  }
}
