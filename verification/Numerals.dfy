/** Text as the C library writes and reads it: decimal numerals, bounded buffers, separators. */
module Numerals {
  import opened Base

  const U64_LIMIT := 0x1_0000_0000_0000_0000
  const U32_LIMIT := 0x1_0000_0000

  predicate IsDigit(c: char) { '0' <= c <= '9' }

  predicate Digits(text: string) { forall k :: 0 <= k < |text| ==> IsDigit(text[k]) }

  function DigitValue(c: char): (d: nat)
    requires IsDigit(c)
    ensures d <= 9
  {
    c as int - '0' as int
  }

  /** The number a digit string denotes. */
  function Value(text: string): nat
    requires Digits(text)
  {
    if text == [] then 0 else 10 * Value(text[..|text| - 1]) + DigitValue(text[|text| - 1])
  }

  lemma AppendDigit(text: string, c: char)
    requires Digits(text) && IsDigit(c)
    ensures Digits(text + [c]) && Value(text + [c]) == 10 * Value(text) + DigitValue(c)
  {
    assert (text + [c])[..|text|] == text;
  }

  function Digit(d: nat): (c: char)
    requires d < 10
    ensures IsDigit(c) && DigitValue(c) == d
  {
    '0' + d as char
  }

  /** A number as %u, %d and %llu print it. */
  function Decimal(n: nat): (text: string)
    ensures text != [] && Digits(text)
  {
    if n < 10 then [Digit(n)] else Decimal(n / 10) + [Digit(n % 10)]
  }

  function Pow10(n: nat): (p: nat)
    ensures p > 0
  {
    if n == 0 then 1 else 10 * Pow10(n - 1)
  }

  lemma {:induction false} DecimalSize(n: nat, digits: nat)
    requires digits > 0 && n < Pow10(digits)
    ensures |Decimal(n)| <= digits
  {
    if n >= 10 {
      DecimalSize(n / 10, digits - 1);
    }
  }

  lemma {:induction false} ValueOfDecimal(n: nat)
    ensures Value(Decimal(n)) == n
  {
    if n < 10 {
      AppendDigit([], Digit(n));
      assert [] + [Digit(n)] == [Digit(n)];
    } else {
      ValueOfDecimal(n / 10);
      AppendDigit(Decimal(n / 10), Digit(n % 10));
    }
  }

  /** strtoull on the whole of a digit string, within 64 bits and a given bound. */
  function ParseUnsigned(text: string, maximum: nat): Option<nat> {
    if text != [] && Digits(text) && Value(text) < U64_LIMIT && Value(text) <= maximum then Some(Value(text)) else None
  }

  lemma ParseOfDecimal(n: nat, maximum: nat)
    ensures ParseUnsigned(Decimal(n), maximum) == if n < U64_LIMIT && n <= maximum then Some(n) else None
  {
    ValueOfDecimal(n);
  }

  // ---------------------------------------------------------------- buffers and separators

  /** What snprintf leaves of a text in a buffer with room for `size` characters. */
  function Truncate(text: string, size: nat): string {
    if |text| <= size then text else text[..size]
  }

  /** Text up to the first separator, and what follows it. */
  function Before(text: string, separator: char): (head: string)
    ensures |head| <= |text| && separator !in head && text[..|head|] == head
    ensures |head| < |text| ==> text[|head|] == separator
  {
    if text == [] || text[0] == separator then [] else [text[0]] + Before(text[1..], separator)
  }

  function After(text: string, separator: char): Option<string> {
    var head := Before(text, separator);
    if |head| == |text| then None else Some(text[|head| + 1..])
  }

  lemma {:induction false} BeforeStops(text: string, separator: char, at: nat)
    requires at < |text| && text[at] == separator
    ensures |Before(text, separator)| <= at
  {
    if at > 0 && text[0] != separator {
      BeforeStops(text[1..], separator, at - 1);
    }
  }

  lemma {:induction false} CutAt(head: string, separator: char, tail: string)
    requires separator !in head
    ensures Before(head + [separator] + tail, separator) == head
    ensures After(head + [separator] + tail, separator) == Some(tail)
  {
    var text := head + [separator] + tail;
    if head == [] {
      assert text[1..] == tail;
    } else {
      CutAt(head[1..], separator, tail);
      assert text[1..] == head[1..] + [separator] + tail;
      assert text[|head| + 1..] == tail;
    }
  }

  lemma {:induction false} NoCut(text: string, separator: char)
    requires separator !in text
    ensures Before(text, separator) == text && After(text, separator) == None
  {
    if text != [] {
      NoCut(text[1..], separator);
    }
  }
}
