/**
 * The text/number conversions the source relies on: decimal rendering of a
 * counter in template strings (`mock-${i}`, `op-${i}`, `S${weekIndex + 1}`)
 * and `parseFloat`/`parseInt` of the add-data form's number fields
 * (src/components/dashboard/AddDataForm.tsx:34-36).
 *
 * The parsers are defined on decimal literals `-?digits(.digits)?`, the
 * subset of number-input values modelled here; a field may also be empty.
 */
module NumberText {

  predicate IsDigit(c: char) { '0' <= c <= '9' }

  predicate AllDigits(s: string)
  {
    forall i :: 0 <= i < |s| ==> IsDigit(s[i])
  }

  function DigitChar(d: nat): (c: char)
    requires d < 10
    ensures IsDigit(c) && c as int - '0' as int == d
  {
    ('0' as int + d) as char
  }

  /** The value of a string of decimal digits, most significant first. */
  function DigitsValue(s: string): nat
    requires AllDigits(s)
  {
    if s == [] then 0 else 10 * DigitsValue(s[..|s| - 1]) + (s[|s| - 1] as int - '0' as int)
  }

  function Pow10(k: nat): (p: nat)
    ensures p >= 1
  {
    if k == 0 then 1 else 10 * Pow10(k - 1)
  }

  /** `${n}` for a non-negative integer: its decimal digits, no sign, no leading zero. */
  function NatToString(n: nat): (s: string)
    ensures |s| > 0 && AllDigits(s)
    ensures |s| > 1 ==> s[0] != '0'
  {
    if n < 10 then [DigitChar(n)] else NatToString(n / 10) + [DigitChar(n % 10)]
  }

  /** Reading back what `NatToString` wrote gives the number. */
  lemma {:induction false} NatToStringRoundTrip(n: nat)
    ensures DigitsValue(NatToString(n)) == n
  {
    if n >= 10 {
      NatToStringRoundTrip(n / 10);
      var s := NatToString(n);
      assert s[..|s| - 1] == NatToString(n / 10);
    }
  }

  /** Different numbers render differently, so counters make distinct ids. */
  lemma NatToStringInjective(m: nat, n: nat)
    requires NatToString(m) == NatToString(n)
    ensures m == n
  {
    NatToStringRoundTrip(m);
    NatToStringRoundTrip(n);
  }

  /** A digit string stays below the next power of ten: a fraction part is less than one. */
  lemma {:induction false} DigitsValueBound(s: string)
    requires AllDigits(s)
    ensures DigitsValue(s) < Pow10(|s|)
  {
    if s != [] {
      DigitsValueBound(s[..|s| - 1]);
    }
  }

  predicate IsNegative(s: string) { |s| > 0 && s[0] == '-' }

  /** The literal without its sign. */
  function Magnitude(s: string): (m: string)
    ensures |m| <= |s|
  {
    if IsNegative(s) then s[1..] else s
  }

  /** The position of the first '.', or the length when there is none. */
  function DotIndex(s: string): (k: nat)
    ensures k <= |s|
    ensures forall i :: 0 <= i < k ==> s[i] != '.'
    ensures k < |s| ==> s[k] == '.'
  {
    if s == [] || s[0] == '.' then 0 else 1 + DotIndex(s[1..])
  }

  /** `-?digits(.digits)?` */
  predicate IsDecimal(s: string)
  {
    var m := Magnitude(s);
    var k := DotIndex(m);
    && 0 < k
    && AllDigits(m[..k])
    && (k == |m| || (k + 1 < |m| && AllDigits(m[k + 1..])))
  }

  /** The number-field values modelled here: nothing yet, or a decimal literal. */
  predicate IsNumberInputValue(s: string)
  {
    s == "" || IsDecimal(s)
  }

  function IntegerPart(s: string): (d: string)
    requires IsDecimal(s)
    ensures |d| > 0 && AllDigits(d)
  {
    Magnitude(s)[..DotIndex(Magnitude(s))]
  }

  function FractionPart(s: string): (d: string)
    requires IsDecimal(s)
    ensures AllDigits(d)
  {
    var m := Magnitude(s);
    var k := DotIndex(m);
    if k == |m| then "" else m[k + 1..]
  }

  /** `parseFloat(s)` on a decimal literal: its exact value. */
  function ParseFloat(s: string): real
    requires IsDecimal(s)
  {
    var f := FractionPart(s);
    var v := DigitsValue(IntegerPart(s)) as real + DigitsValue(f) as real / Pow10(|f|) as real;
    if IsNegative(s) then -v else v
  }

  /** `parseInt(s)` on a decimal literal: it stops at the '.'. */
  function ParseInt(s: string): int
    requires IsDecimal(s)
  {
    var v: int := DigitsValue(IntegerPart(s));
    if IsNegative(s) then -v else v
  }

  /** `parseInt` truncates `parseFloat`'s value toward zero. */
  lemma ParseIntTruncates(s: string)
    requires IsDecimal(s)
    ensures var f, i := ParseFloat(s), ParseInt(s) as real;
      (0.0 <= i <= f < i + 1.0) || (i - 1.0 < f <= i <= 0.0)
  {
    var fr := FractionPart(s);
    DigitsValueBound(fr);
    ProperFraction(DigitsValue(fr), Pow10(|fr|));
  }

  lemma ProperFraction(d: nat, p: nat)
    requires d < p
    ensures 0.0 <= d as real / p as real < 1.0
  {
    var q := d as real / p as real;
    assert q * p as real == d as real;
  }

  lemma DotIndexOfDigits(s: string)
    requires AllDigits(s)
    ensures DotIndex(s) == |s|
  {
    if s != [] {
      assert AllDigits(s[1..]);
      DotIndexOfDigits(s[1..]);
    }
  }

  /** A rendered counter is a decimal literal both parsers read back exactly. */
  lemma ParseNatToString(n: nat)
    ensures IsDecimal(NatToString(n))
    ensures ParseInt(NatToString(n)) == n
    ensures ParseFloat(NatToString(n)) == n as real
  {
    var s := NatToString(n);
    DotIndexOfDigits(s);
    assert s[..|s|] == s;
    NatToStringRoundTrip(n);
  }
}
