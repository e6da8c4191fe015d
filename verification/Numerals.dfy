/** What integer text means: positional numerals, the two digit loops of the log
    stream, and a parser that reads the text back. */
module Numerals {
  import opened Options

  const DIGITS_HEX := "0123456789ABCDEF"

  function DigitChar(d: nat): char
    requires d < 16
  {
    DIGITS_HEX[d]
  }

  predicate IsBase(base: nat) {
    base == 10 || base == 16
  }

  function Quot(n: nat, base: nat): nat
    requires IsBase(base)
  {
    if base == 10 then n / 10 else n / 16
  }

  function Rem(n: nat, base: nat): nat
    requires IsBase(base)
  {
    if base == 10 then n % 10 else n % 16
  }

  function Scale(n: nat, base: nat): nat
    requires IsBase(base)
  {
    if base == 10 then n * 10 else n * 16
  }

  /** The canonical numeral of `n`, most significant digit first. */
  function Numeral(n: nat, base: nat): string
    requires IsBase(base)
  {
    if n < base then [DigitChar(n)] else Numeral(Quot(n, base), base) + [DigitChar(Rem(n, base))]
  }

  /** Canonical signed decimal text. */
  function Decimal(v: int): string {
    if v < 0 then "-" + Numeral(-v, 10) else Numeral(v, 10)
  }

  // ---- Reading text back ----

  function DigitOf(c: char, base: nat): Option<nat>
    requires IsBase(base)
  {
    if '0' <= c <= '9' then Some(c as nat - '0' as nat)
    else if base == 16 && 'A' <= c <= 'F' then Some(c as nat - 'A' as nat + 10)
    else None
  }

  function ParseNat(s: string, base: nat): Option<nat>
    requires IsBase(base)
  {
    if |s| == 0 then None
    else
      match DigitOf(s[|s| - 1], base)
      case None => None
      case Some(d) =>
        if |s| == 1 then Some(d)
        else
          match ParseNat(s[..|s| - 1], base)
          case None => None
          case Some(high) => Some(Scale(high, base) + d)
  }

  function ParseInt(s: string): Option<int> {
    if |s| > 0 && s[0] == '-' then
      match ParseNat(s[1..], 10)
      case None => None
      case Some(n) => Some(0 - n as int)
    else
      match ParseNat(s, 10)
      case None => None
      case Some(n) => Some(n)
  }

  /** No leading zero: only the numeral of zero itself starts with '0'. */
  predicate NoLeadingZero(s: string) {
    |s| > 0 && (s[0] == '0' ==> |s| == 1)
  }

  /** The signed form also excludes "-0". */
  predicate CanonicalDecimal(s: string) {
    if |s| > 0 && s[0] == '-' then NoLeadingZero(s[1..]) && s[1..] != "0" else NoLeadingZero(s)
  }

  lemma DigitRoundTrip(d: nat, base: nat)
    requires IsBase(base) && d < base
    ensures DigitOf(DigitChar(d), base) == Some(d)
    ensures DigitChar(d) == '0' <==> d == 0
    ensures DigitChar(d) != '-'
  {
  }

  lemma DigitInverse(c: char, base: nat)
    requires IsBase(base) && DigitOf(c, base).Some?
    ensures DigitOf(c, base).value < base
    ensures DigitChar(DigitOf(c, base).value) == c
  {
  }

  /** A numeral reads back as the number it was made from. */
  lemma {:induction false} NumeralRoundTrip(n: nat, base: nat)
    requires IsBase(base)
    ensures |Numeral(n, base)| >= 1
    ensures ParseNat(Numeral(n, base), base) == Some(n)
    decreases n
  {
    if n < base {
      DigitRoundTrip(n, base);
    } else {
      var high, d := Quot(n, base), Rem(n, base);
      NumeralRoundTrip(high, base);
      DigitRoundTrip(d, base);
      ParseSnoc(Numeral(high, base), DigitChar(d), base);
    }
  }

  lemma ParseSnoc(high: string, c: char, base: nat)
    requires IsBase(base) && |high| >= 1
    requires ParseNat(high, base).Some? && DigitOf(c, base).Some?
    ensures ParseNat(high + [c], base) == Some(Scale(ParseNat(high, base).value, base) + DigitOf(c, base).value)
  {
    var s := high + [c];
    assert s[..|s| - 1] == high;
  }

  /** A numeral never has a leading zero, nor a sign of its own. */
  lemma {:induction false} NumeralLead(n: nat, base: nat)
    requires IsBase(base)
    ensures NoLeadingZero(Numeral(n, base))
    ensures Numeral(n, base)[0] == '0' <==> n == 0
    ensures Numeral(n, base)[0] != '-'
    decreases n
  {
    if n >= base {
      NumeralLead(Quot(n, base), base);
    }
  }

  lemma NumeralSnoc(high: nat, d: nat, base: nat)
    requires IsBase(base) && high > 0 && d < base
    ensures Numeral(Scale(high, base) + d, base) == Numeral(high, base) + [DigitChar(d)]
  {
    assert Quot(Scale(high, base) + d, base) == high && Rem(Scale(high, base) + d, base) == d;
  }

  lemma {:induction false} LeadIsPositive(s: string, base: nat)
    requires IsBase(base) && s != "" && s[0] != '0' && ParseNat(s, base).Some?
    ensures ParseNat(s, base).value > 0
    decreases |s|
  {
    if |s| > 1 {
      LeadIsPositive(s[..|s| - 1], base);
    }
  }

  /** Conversely, a numeral without a leading zero is the numeral of its value. */
  lemma {:induction false} NumeralUnique(s: string, base: nat)
    requires IsBase(base) && NoLeadingZero(s) && ParseNat(s, base).Some?
    ensures s == Numeral(ParseNat(s, base).value, base)
    decreases |s|
  {
    var last := |s| - 1;
    var c, t := s[last], s[..last];
    DigitInverse(c, base);
    if t != "" {
      assert s == t + [c] && t[0] == s[0];
      NumeralUnique(t, base);
      LeadIsPositive(t, base);
      var high, d := ParseNat(t, base).value, DigitOf(c, base).value;
      ParseSnoc(t, c, base);
      NumeralSnoc(high, d, base);
    } else {
      assert s == [c];
    }
  }

  /** Signed text reads back as the value and is canonical, for every integer. */
  lemma DecimalRoundTrip(v: int)
    ensures ParseInt(Decimal(v)) == Some(v)
    ensures CanonicalDecimal(Decimal(v))
  {
    var m := Magnitude(v);
    NumeralRoundTrip(m, 10);
    NumeralLead(m, 10);
    if v < 0 {
      assert Decimal(v)[1..] == Numeral(m, 10);
    }
  }

  /** Among canonical texts, only `Decimal(v)` reads back as `v`. */
  lemma DecimalUnique(s: string, v: int)
    requires CanonicalDecimal(s) && ParseInt(s) == Some(v)
    ensures s == Decimal(v)
  {
    if |s| > 0 && s[0] == '-' {
      NumeralUnique(s[1..], 10);
      assert s == "-" + s[1..];
    } else {
      NumeralUnique(s, 10);
    }
  }

  function Power(base: nat, k: nat): nat
    requires IsBase(base)
  {
    if k == 0 then 1 else Scale(Power(base, k - 1), base)
  }

  /** A numeral has at most `k` digits exactly when the number is below base^k. */
  lemma {:induction false} NumeralLength(n: nat, base: nat, k: nat)
    requires IsBase(base) && k >= 1
    ensures |Numeral(n, base)| >= 1
    ensures |Numeral(n, base)| <= k <==> n < Power(base, k)
    decreases k, n
  {
    PowerPositive(base, k - 1);
    if n >= base {
      NumeralLength(Quot(n, base), base, if k == 1 then 1 else k - 1);
      if k == 1 {
        assert Power(base, 1) == Scale(Power(base, 0), base);
      }
    }
  }

  lemma {:induction false} PowerPositive(base: nat, k: nat)
    requires IsBase(base)
    ensures Power(base, k) >= 1
  {
    if k > 0 {
      PowerPositive(base, k - 1);
    }
  }

  // ---- C arithmetic ----

  /** Division rounding toward zero, as C++ does for signed operands. */
  function TruncDiv(a: int, b: int): int
    requires b > 0
  {
    if a >= 0 then a / b else -((-a) / b)
  }

  function TruncMod(a: int, b: int): int
    requires b > 0
  {
    a - b * TruncDiv(a, b)
  }

  function Magnitude(a: int): nat {
    if a < 0 then -a else a
  }

  /** One round of the digit loop: the truncated remainder is the signed last digit,
      even at the minimum of a signed type, whose magnitude the type cannot hold. */
  lemma TruncStep(a: int)
    ensures Magnitude(TruncDiv(a, 10)) == Magnitude(a) / 10
    ensures Magnitude(TruncMod(a, 10)) == Magnitude(a) % 10
    ensures -10 < TruncMod(a, 10) < 10
  {
  }
}
