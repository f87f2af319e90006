/** mc_parse_cpu_quota of src/util/resource.c: a hand-written fixed-point decimal parser. */
module Quota {
  import opened Base
  import opened Numerals
  import opened Paths

  const MILLION := 1_000_000
  const SHIM_BOUND := 102_400_000 // the largest --cpu-quota that the shim accepts

  // ---------------------------------------------------------------- the accepted language

  function Whole(text: string): string {
    text[..IndexOf(text, '.')]
  }

  function Fraction(text: string): string {
    var dot := IndexOf(text, '.');
    if dot == |text| then [] else text[dot + 1..]
  }

  /** Digits with at most one dot among them, and at least one digit. */
  predicate IsDecimal(text: string) {
    Digits(Whole(text)) && Digits(Fraction(text)) && Whole(text) + Fraction(text) != []
  }

  /** The real number a decimal denotes. */
  ghost function DecimalValue(text: string): real
    requires IsDecimal(text)
  {
    Value(Whole(text)) as real + Value(Fraction(text)) as real / Pow10(|Fraction(text)|) as real
  }

  /** At most six fractional digits and a value from 0.00001 to 1024. */
  ghost predicate Acceptable(text: string) {
    IsDecimal(text) && |Fraction(text)| <= 6 && 0.00001 <= DecimalValue(text) <= 1024.0
  }

  // ---------------------------------------------------------------- arithmetic

  lemma {:induction false} ValueOfPrefix(a: string, b: string)
    requires Digits(a) && Digits(a + b)
    ensures Value(a) <= Value(a + b)
  {
    if b == [] {
      assert a + b == a;
    } else {
      var shorter := b[..|b| - 1];
      assert (a + b)[..|a + b| - 1] == a + shorter;
      ValueOfPrefix(a, shorter);
    }
  }

  lemma ExactDivision(a: nat, p: nat)
    requires p > 0
    ensures a * p / p == a
  {
    var q := a * p / p;
    assert q * p <= a * p < (q + 1) * p;
    if q < a { MulMonotone(q + 1, a, p); }
    if q > a { MulMonotone(a + 1, q, p); }
  }

  lemma MulMonotone(a: nat, b: nat, p: nat)
    requires a <= b
    ensures a * p <= b * p
  {}

  lemma ScaledDivision(fraction: nat, p: nat, m: nat)
    requires p > 0 && m * p == MILLION
    ensures fraction * MILLION / p * p == fraction * MILLION
  {
    assert fraction * MILLION == fraction * m * p;
    ExactDivision(fraction * m, p);
  }

  /** A scale of at most 10^6 divides a million, so the division in the code is exact. */
  lemma ScaleDivides(fraction: nat, digits: nat)
    requires digits <= 6
    ensures fraction * MILLION / Pow10(digits) * Pow10(digits) == fraction * MILLION
  {
    assert Pow10(1) == 10 && Pow10(2) == 100 && Pow10(3) == 1_000;
    assert Pow10(4) == 10_000 && Pow10(5) == 100_000 && Pow10(6) == MILLION;
    ScaledDivision(fraction, Pow10(digits), Pow10(6 - digits));
  }

  lemma ExactQuotient(fraction: nat, scale: nat, q: nat)
    requires scale > 0 && q * scale == fraction * MILLION
    ensures fraction as real / scale as real * MILLION as real == q as real
  {
    assert q as real * scale as real == (q * scale) as real == fraction as real * MILLION as real;
    assert fraction as real / scale as real * MILLION as real == fraction as real * MILLION as real / scale as real;
  }

  lemma {:induction false} ValueBelowScale(text: string)
    requires Digits(text)
    ensures Value(text) < Pow10(|text|)
  {
    if text != [] { ValueBelowScale(text[..|text| - 1]); }
  }

  /** Dividing the micro-units by ten floors the exact value times 100000. */
  lemma TenthIsFloor(micros: nat)
    ensures (micros as real / 10.0).Floor == micros / 10
  {
    var q, r := micros / 10, micros % 10;
    assert micros as real / 10.0 == q as real + r as real / 10.0;
  }

  // ---------------------------------------------------------------- the parser

  /** The parser's loop variables. */
  datatype Scan = Scan(whole: nat, fraction: nat, scale: nat, seenDigit: bool, seenDot: bool)

  /** The loop body; None is the early return of 0. */
  function Step(scan: Scan, c: char): Option<Scan> {
    if c == '.' then
      if scan.seenDot then None else Some(scan.(seenDot := true))
    else if !IsDigit(c) then None
    else if !scan.seenDot then
      if scan.whole > 1024 then None else Some(scan.(whole := scan.whole * 10 + DigitValue(c), seenDigit := true))
    else if scan.scale < MILLION then
      Some(scan.(fraction := scan.fraction * 10 + DigitValue(c), scale := scan.scale * 10, seenDigit := true))
    else None
  }

  /** `scan` holds what the first `index` characters denote. */
  ghost predicate Scanned(text: string, index: nat, scan: Scan)
    requires index <= |text|
  {
    var dot := IndexOf(text, '.');
    && (scan.seenDot <==> index > dot)
    && var end := if scan.seenDot then dot else index;
    var start := if scan.seenDot then dot + 1 else index;
    && Digits(text[..end]) && scan.whole == Value(text[..end]) && scan.whole <= 10249
    && Digits(text[start..index]) && scan.fraction == Value(text[start..index])
    && index - start <= 6 && scan.scale == Pow10(index - start)
    && (scan.seenDigit <==> end > 0 || index > start)
  }

  lemma Quotient(a: nat, b: nat)
    requires b > 0
    ensures a as real / b as real >= 0.0
  {}

  lemma WholeIsLowerBound(text: string)
    requires IsDecimal(text)
    ensures DecimalValue(text) >= Value(Whole(text)) as real
  {
    Quotient(Value(Fraction(text)), Pow10(|Fraction(text)|));
  }

  lemma WholeTooLarge(text: string, index: nat)
    requires index < IndexOf(text, '.') && Digits(text[..index]) && Value(text[..index]) > 1024
    requires IsDecimal(text)
    ensures !Acceptable(text)
  {
    var dot := IndexOf(text, '.');
    assert Whole(text) == text[..index] + text[index..dot];
    ValueOfPrefix(text[..index], text[index..dot]);
    WholeIsLowerBound(text);
  }

  lemma ScaleBelowMillion(digits: nat)
    requires digits <= 6
    ensures Pow10(digits) < MILLION <==> digits < 6
  {
    assert Pow10(1) == 10 && Pow10(2) == 100 && Pow10(3) == 1_000;
    assert Pow10(4) == 10_000 && Pow10(5) == 100_000 && Pow10(6) == MILLION;
  }

  lemma StepWhole(text: string, index: nat, scan: Scan)
    requires index < |text| && Scanned(text, index, scan) && !scan.seenDot && text[index] != '.'
    requires Step(scan, text[index]).Some?
    ensures Scanned(text, index + 1, Step(scan, text[index]).value)
  {
    assert text[..index + 1] == text[..index] + [text[index]];
    AppendDigit(text[..index], text[index]);
    assert text[index..index] == [] && text[index + 1..index + 1] == [];
  }

  lemma StepFraction(text: string, index: nat, scan: Scan)
    requires index < |text| && Scanned(text, index, scan) && scan.seenDot && text[index] != '.'
    requires Step(scan, text[index]).Some?
    ensures Scanned(text, index + 1, Step(scan, text[index]).value)
  {
    var start := IndexOf(text, '.') + 1;
    ScaleBelowMillion(index - start);
    assert text[start..index + 1] == text[start..index] + [text[index]];
    AppendDigit(text[start..index], text[index]);
  }

  lemma StepDot(text: string, index: nat, scan: Scan)
    requires index < |text| && Scanned(text, index, scan) && text[index] == '.'
    requires Step(scan, text[index]).Some?
    ensures Scanned(text, index + 1, Step(scan, text[index]).value)
  {
    assert IndexOf(text, '.') == index;
    assert text[index + 1..index + 1] == [] && text[index..index] == [];
  }

  /** Every early return of the loop is a correct rejection. */
  lemma StepRejects(text: string, index: nat, scan: Scan)
    requires index < |text| && Scanned(text, index, scan) && Step(scan, text[index]).None?
    ensures !Acceptable(text)
  {
    if IsDecimal(text) {
      var dot := IndexOf(text, '.');
      if index < dot {
        assert Whole(text)[index] == text[index];
        WholeTooLarge(text, index);
      } else {
        assert Fraction(text)[index - dot - 1] == text[index];
        ScaleBelowMillion(index - dot - 1);
      }
    }
  }

  /** whole.fraction in millionths, as the code computes it once all is scanned. */
  function Micros(scan: Scan): nat
    requires scan.scale > 0
  {
    scan.whole * MILLION + scan.fraction * MILLION / scan.scale
  }

  lemma ScannedText(text: string, scan: Scan)
    requires Scanned(text, |text|, scan)
    ensures scan.seenDigit <==> IsDecimal(text)
    ensures Digits(Whole(text)) && scan.whole == Value(Whole(text)) && scan.whole <= 10249
    ensures Digits(Fraction(text)) && scan.fraction == Value(Fraction(text))
    ensures |Fraction(text)| <= 6 && scan.scale == Pow10(|Fraction(text)|)
  {
    var dot := IndexOf(text, '.');
    assert Whole(text) == text[..dot];
    if dot == |text| {
      assert text[|text|..|text|] == [];
    } else {
      assert Fraction(text) == text[dot + 1..|text|];
    }
  }

  /** The division is exact, and nothing exceeds 64 bits on the way. */
  lemma MicrosAreExact(whole: nat, fraction: string)
    requires Digits(fraction) && |fraction| <= 6 && whole <= 10249
    ensures var scan := Scan(whole, Value(fraction), Pow10(|fraction|), true, true);
            && scan.fraction * MILLION < U64_LIMIT && Micros(scan) * 100_000 < U64_LIMIT
            && (whole as real + Value(fraction) as real / Pow10(|fraction|) as real) * MILLION as real ==
               Micros(scan) as real
            && whole * MILLION <= Micros(scan)
  {
    var scale := Pow10(|fraction|);
    var q := Value(fraction) * MILLION / scale;
    ValueBelowScale(fraction);
    ScaleBelowMillion(|fraction|);
    ScaleDivides(Value(fraction), |fraction|);
    ExactQuotient(Value(fraction), scale, q);
    QuotientBelow(Value(fraction), scale, q);
  }

  lemma QuotientBelow(fraction: nat, scale: nat, q: nat)
    requires fraction < scale && q * scale == fraction * MILLION
    ensures q < MILLION
  {
    assert q >= MILLION ==> q * scale >= MILLION * scale;
  }

  lemma StepAdvances(text: string, index: nat, scan: Scan)
    requires index < |text| && Scanned(text, index, scan) && Step(scan, text[index]).Some?
    ensures Scanned(text, index + 1, Step(scan, text[index]).value)
  {
    if text[index] == '.' { StepDot(text, index, scan); }
    else if scan.seenDot { StepFraction(text, index, scan); }
    else { StepWhole(text, index, scan); }
  }

  method ScanDecimal(value: string) returns (scan: Option<Scan>)
    ensures scan.None? ==> !Acceptable(value)
    ensures scan.Some? ==> Scanned(value, |value|, scan.value)
  {
    scan := Some(Scan(0, 0, 1, false, false));
    for index := 0 to |value|
      invariant scan.Some? && Scanned(value, index, scan.value)
    {
      var next := Step(scan.value, value[index]);
      if next.None? {
        StepRejects(value, index, scan.value);
        return None;
      }
      StepAdvances(value, index, scan.value);
      scan := next;
    }
  }

  /** The checks after the loop. */
  function Finish(scan: Scan): Option<nat>
    requires scan.scale > 0
  {
    if !scan.seenDigit || scan.whole > 1024 then None
    else if Micros(scan) == 0 || Micros(scan) > 1024 * MILLION then None
    else if Micros(scan) * 100_000 / MILLION > 0 then Some(Micros(scan) * 100_000 / MILLION)
    else None
  }

  lemma QuotaOfMicros(value: real, micros: nat)
    requires value * MILLION as real == micros as real
    ensures 0.00001 <= value <= 1024.0 <==> 10 <= micros <= 1024 * MILLION
    ensures (value * 100000.0).Floor == micros / 10
  {
    assert value * 100000.0 == micros as real / 10.0;
    TenthIsFloor(micros);
  }

  lemma FinishDecides(text: string, scan: Scan)
    requires Scanned(text, |text|, scan)
    ensures Finish(scan).Some? <==> Acceptable(text)
    ensures Finish(scan).Some? ==> Finish(scan).value == (DecimalValue(text) * 100000.0).Floor
    ensures Finish(scan).Some? ==> 1 <= Finish(scan).value <= SHIM_BOUND
    ensures scan.fraction * MILLION < U64_LIMIT && Micros(scan) * 100_000 < U64_LIMIT
  {
    ScannedText(text, scan);
    MicrosAreExact(scan.whole, Fraction(text));
    if IsDecimal(text) {
      QuotaOfMicros(DecimalValue(text), Micros(scan));
    }
  }

  /** Accepts exactly the acceptable decimals and returns the floor of their value times
      100000, always within the shim's bound. */
  method ParseCpuQuota(value: string) returns (quota: Option<nat>)
    ensures quota.Some? <==> Acceptable(value)
    ensures quota.Some? ==> quota.value == (DecimalValue(value) * 100000.0).Floor
    ensures quota.Some? ==> 1 <= quota.value <= SHIM_BOUND
  {
    if value == [] { return None; }
    var scanned := ScanDecimal(value);
    if scanned.None? { return None; }
    FinishDecides(value, scanned.value);
    quota := Finish(scanned.value);
  }
}
