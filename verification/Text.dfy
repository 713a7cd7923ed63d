// Numbers as text, both ways, and the search primitive used when topics are cut apart.

module Text {
  import opened Options

  // ---- Searching ----

  // Index of the first `c` at or after `from`, or |s| when there is none.
  function FindFirst(s: string, c: char, from: nat): (n: nat)
    requires from <= |s|
    ensures from <= n <= |s|
    ensures forall i | from <= i < n :: s[i] != c
    ensures n < |s| ==> s[n] == c
    decreases |s| - from
  {
    if from == |s| || s[from] == c then from else FindFirst(s, c, from + 1)
  }

  // ---- Natural numbers ----

  predicate IsDigit(c: char) {
    '0' <= c <= '9'
  }

  function Digit(d: nat): char
    requires d < 10
  {
    ('0' as int + d) as char
  }

  function DigitValue(c: char): nat
    requires IsDigit(c)
  {
    c as int - '0' as int
  }

  function PrintNat(n: nat): string {
    if n < 10 then [Digit(n)] else PrintNat(n / 10) + [Digit(n % 10)]
  }

  predicate AllDigits(s: string) {
    forall i | 0 <= i < |s| :: IsDigit(s[i])
  }

  function Value(s: string): nat
    requires AllDigits(s)
  {
    if s == "" then 0 else 10 * Value(s[..|s| - 1]) + DigitValue(s[|s| - 1])
  }

  // A decimal number that makes up the whole text.
  function ReadNat(s: string): Option<nat> {
    if s != "" && AllDigits(s) then Some(Value(s)) else None
  }

  // The same, when it fits 32 bits.
  function ReadUint32(s: string): Option<nat> {
    match ReadNat(s)
    case Some(n) => if n < 0x1_0000_0000 then Some(n) else None
    case None => None
  }

  lemma {:induction false} PrintNatReads(n: nat)
    ensures PrintNat(n) != "" && AllDigits(PrintNat(n)) && Value(PrintNat(n)) == n
  {
    if n < 10 {
      assert [Digit(n)][..0] == "";
      assert Value([Digit(n)]) == 10 * Value("") + DigitValue(Digit(n));
    } else {
      PrintNatReads(n / 10);
      var s := PrintNat(n);
      assert s[..|s| - 1] == PrintNat(n / 10);
    }
  }

  // ---- Fixed-point decimals ----

  // n without its last `p` digits.
  function Whole(n: nat, p: nat): nat {
    if p == 0 then n else Whole(n / 10, p - 1)
  }

  // The last `p` digits of n, with leading zeros.
  function Fraction(n: nat, p: nat): (s: string)
    ensures |s| == p
  {
    if p == 0 then "" else Fraction(n / 10, p - 1) + [Digit(n % 10)]
  }

  function Abs(x: int): nat {
    if x < 0 then -x else x
  }

  function PrintUnsigned(units: nat, precision: nat): string {
    PrintNat(Whole(units, precision)) + (if precision == 0 then "" else "." + Fraction(units, precision))
  }

  // `units` scaled down by 10^precision, printed with exactly `precision` fraction digits.
  function PrintDecimal(units: int, precision: nat): string {
    if units < 0 then "-" + PrintUnsigned(-units, precision) else PrintUnsigned(units, precision)
  }

  function ReadUnsigned(t: string): Option<(nat, nat)> {
    var dot := FindFirst(t, '.', 0);
    var fraction := if dot == |t| then "" else t[dot + 1..];
    match ReadNat(t[..dot] + fraction)
    case None => None
    case Some(n) => Some((n, |fraction|))
  }

  // The scaled integer and the number of fraction digits.
  function ReadDecimal(t: string): Option<(int, nat)> {
    if t != "" && t[0] == '-' then
      match ReadUnsigned(t[1..])
      case None => None
      case Some((n, precision)) => var units: int := 0 - n; Some((units, precision))
    else
      match ReadUnsigned(t)
      case None => None
      case Some((n, precision)) => var units: int := n; Some((units, precision))
  }

  lemma {:induction false} WholeFraction(n: nat, p: nat)
    ensures AllDigits(PrintNat(Whole(n, p)) + Fraction(n, p))
    ensures Value(PrintNat(Whole(n, p)) + Fraction(n, p)) == n
  {
    hide PrintNat;
    var s := PrintNat(Whole(n, p));
    if p == 0 {
      PrintNatReads(n);
      assert s + Fraction(n, p) == s;
    } else {
      var t := s + Fraction(n, p);
      assert t[..|t| - 1] == s + Fraction(n / 10, p - 1);
      WholeFraction(n / 10, p - 1);
    }
  }

  lemma FindDot(s: string, rest: string)
    requires AllDigits(s)
    requires rest == "" || rest[0] == '.'
    ensures FindFirst(s + rest, '.', 0) == |s|
  {
    var t := s + rest;
    assert forall i | 0 <= i < |s| :: t[i] == s[i] && IsDigit(s[i]);
    assert rest != "" ==> t[|s|] == '.';
  }

  lemma {:induction false} UnsignedCharacters(units: nat, precision: nat)
    ensures PrintUnsigned(units, precision) != "" && IsDigit(PrintUnsigned(units, precision)[0])
    ensures forall i | 0 <= i < |PrintUnsigned(units, precision)| ::
              IsDigit(PrintUnsigned(units, precision)[i]) || PrintUnsigned(units, precision)[i] == '.'
  {
    PrintNatReads(Whole(units, precision));
    WholeFraction(units, precision);
    var whole := PrintNat(Whole(units, precision));
    var digits := whole + Fraction(units, precision);
    assert forall i | 0 <= i < precision :: Fraction(units, precision)[i] == digits[|whole| + i];
  }

  lemma DecimalCharacters(units: int, precision: nat)
    ensures forall i | 0 <= i < |PrintDecimal(units, precision)| ::
              var c := PrintDecimal(units, precision)[i]; IsDigit(c) || c == '-' || c == '.'
  {
    UnsignedCharacters(Abs(units), precision);
    if units < 0 {
      var t := PrintDecimal(units, precision);
      assert forall i | 0 < i < |t| :: t[i] == PrintUnsigned(-units, precision)[i - 1];
    }
  }

  lemma {:induction false} ReadPrintUnsigned(units: nat, precision: nat)
    ensures ReadUnsigned(PrintUnsigned(units, precision)) == Some((units, precision))
  {
    var whole := PrintNat(Whole(units, precision));
    var fraction := Fraction(units, precision);
    var rest := if precision == 0 then "" else "." + fraction;
    var t := whole + rest;
    PrintNatReads(Whole(units, precision));
    WholeFraction(units, precision);
    FindDot(whole, rest);
    assert t[..|whole|] == whole;
    assert (if |whole| == |t| then "" else t[|whole| + 1..]) == fraction;
  }

  /** Printing a decimal loses neither the scaled integer nor the precision. */
  lemma {:induction false} ReadPrintDecimal(units: int, precision: nat)
    ensures ReadDecimal(PrintDecimal(units, precision)) == Some((units, precision))
  {
    hide PrintUnsigned, ReadUnsigned;
    var t := PrintDecimal(units, precision);
    if units < 0 {
      assert t[1..] == PrintUnsigned(-units, precision);
      ReadPrintUnsigned(-units, precision);
    } else {
      UnsignedCharacters(units, precision);
      ReadPrintUnsigned(units, precision);
    }
  }
}
