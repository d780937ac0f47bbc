/**
 Decimal text: what strconv.FormatInt prints and strconv.ParseInt reads back
 (base 10, 64 bits), including signs, malformed text and range errors.
 */
module Decimal {
  import opened Wrappers
  import opened Text

  const MAX_INT64: int := 0x7FFF_FFFF_FFFF_FFFF
  const MIN_INT64: int := -0x8000_0000_0000_0000

  predicate IsInt64(n: int) {
    MIN_INT64 <= n <= MAX_INT64
  }

  predicate IsDigit(c: char) {
    '0' <= c <= '9'
  }

  predicate AllDigits(s: string) {
    forall i | 0 <= i < |s| :: IsDigit(s[i])
  }

  function Digit(n: nat): (c: char)
    requires n < 10
    ensures IsDigit(c)
  {
    '0' + n as char
  }

  function DigitValue(c: char): (n: nat)
    requires IsDigit(c)
    ensures n < 10
  {
    (c - '0') as nat
  }

  function FormatNat(n: nat): (s: string)
    ensures s != "" && AllDigits(s)
  {
    if n < 10 then [Digit(n)] else FormatNat(n / 10) + [Digit(n % 10)]
  }

  function FormatInt(n: int): string {
    if n < 0 then "-" + FormatNat(-n) else FormatNat(n)
  }

  function ValueOf(s: string): nat
    requires AllDigits(s)
  {
    if s == "" then 0 else 10 * ValueOf(s[..|s| - 1]) + DigitValue(s[|s| - 1])
  }

  function ParseInt(s: string): Option<int> {
    var negative := s != "" && s[0] == '-';
    var digits := if s != "" && (s[0] == '-' || s[0] == '+') then s[1..] else s;
    if digits == "" || !AllDigits(digits) then None
    else
      var magnitude: int := ValueOf(digits);
      var n := if negative then -magnitude else magnitude;
      if IsInt64(n) then Some(n) else None
  }

  lemma {:induction false} ValueOfFormat(n: nat)
    ensures ValueOf(FormatNat(n)) == n
  {
    var s := FormatNat(n);
    if n >= 10 {
      ValueOfFormat(n / 10);
      assert s[..|s| - 1] == FormatNat(n / 10);
    }
  }

  // What is printed is read back, for every 64-bit integer.
  lemma ParseOfFormat(n: int)
    requires IsInt64(n)
    ensures ParseInt(FormatInt(n)) == Some(n)
  {
    ValueOfFormat(if n < 0 then -n else n);
    var s := FormatInt(n);
    if n < 0 {
      assert s[1..] == FormatNat(-n);
    } else {
      assert IsDigit(s[0]);
    }
  }

  // A sign may lead, whatever is no digit is refused, and so is what no int64 holds.
  lemma ParseIntIff(s: string, n: int)
    ensures ParseInt(s) == Some(n) <==>
            IsInt64(n) && exists digits | digits != "" && AllDigits(digits) ::
                            && (s == digits || s == "+" + digits || s == "-" + digits)
                            && n == (if "-" <= s then -1 else 1) * ValueOf(digits)
  {
    hide ValueOf;
    var digits := if s != "" && (s[0] == '-' || s[0] == '+') then s[1..] else s;
    assert s == digits || s == "+" + digits || s == "-" + digits;
    forall d | d != "" && AllDigits(d) && (s == d || s == "+" + d || s == "-" + d) ensures d == digits {
      assert IsDigit(d[0]);
    }
  }

  lemma FormatNatInjective(a: nat, b: nat)
    requires FormatNat(a) == FormatNat(b)
    ensures a == b
  {
    ValueOfFormat(a);
    ValueOfFormat(b);
  }

  lemma FormatNatIsWord(n: nat)
    ensures Word(FormatNat(n))
    ensures Normalize(FormatNat(n)) == FormatNat(n)
  {
    var s := FormatNat(n);
    assert forall i | 0 <= i < |s| :: IsDigit(s[i]);
    FieldsOfJoin([s]);
  }

  // Zero-padded decimal of a fixed width, as the time layout prints it.
  function Pad(n: nat, width: nat): (s: string)
    ensures |s| == width && AllDigits(s)
  {
    if width == 0 then "" else Pad(n / 10, width - 1) + [Digit(n % 10)]
  }

  function Pow10(width: nat): nat {
    if width == 0 then 1 else 10 * Pow10(width - 1)
  }

  lemma {:induction false} ValueOfPad(n: nat, width: nat)
    requires n < Pow10(width)
    ensures ValueOf(Pad(n, width)) == n
  {
    if width > 0 {
      ValueOfPad(n / 10, width - 1);
      assert Pad(n, width)[..width - 1] == Pad(n / 10, width - 1);
    }
  }

  lemma {:induction false} FormatNatLength(n: nat, width: nat)
    requires width > 0
    ensures |FormatNat(n)| <= width <==> n < Pow10(width)
  {
    if n >= 10 {
      if width > 1 { FormatNatLength(n / 10, width - 1); }
      else { assert Pow10(1) == 10 * Pow10(0); }
    } else {
      Pow10Positive(width - 1);
    }
  }

  lemma {:induction false} Pow10Positive(width: nat)
    ensures Pow10(width) >= 1
  {
    if width > 0 { Pow10Positive(width - 1); }
  }
}
