/** The check digit `calculateLuhnCheckDigit` computes, and how it relates
    to the Luhn (mod 10) check of ISO/IEC 7812-1, Annex B. */
module Luhn {
  import opened Text

  /** A digit's contribution when it stands `pos` places from the right end
      (0-based): odd places are doubled, and a doubled value above 9 loses 9. */
  function Term(c: char, pos: nat): (t: nat)
    requires IsDigit(c)
    ensures t <= 9
    ensures pos % 2 == 0 ==> t == DigitValue(c)
  {
    var d := DigitValue(c);
    if pos % 2 == 1 then (if 2 * d > 9 then 2 * d - 9 else 2 * d) else d
  }

  /** The sum of all terms of `s` when its rightmost digit stands `shift`
      places from the right end. */
  function WeightedFrom(s: string, shift: nat): nat
    requires AllDigits(s)
  {
    if s == [] then 0 else Term(s[0], |s| - 1 + shift) + WeightedFrom(s[1..], shift)
  }

  /** The alternating sum in which the rightmost digit is not doubled, the
      one before it is, and so on. */
  function Weighted(s: string): nat
    requires AllDigits(s)
  {
    WeightedFrom(s, 0)
  }

  /** The digit the program appends to a card payload. */
  function CheckDigitOf(payload: string): (d: nat)
    requires AllDigits(payload)
    ensures d < 10 && (Weighted(payload) + d) % 10 == 0
  {
    (10 - Weighted(payload) % 10) % 10
  }

  /** `calculateLuhnCheckDigit(number)`: a scan from the rightmost digit
      leftward that doubles every second digit, starting with the second one
      scanned, then takes the complement of the sum modulo 10. */
  method CalculateCheckDigit(number: string) returns (d: nat)
    requires AllDigits(number)
    ensures d < 10 && (Weighted(number) + d) % 10 == 0
    ensures d == CheckDigitOf(number)
  {
    var sum := 0;
    var alternate := false;
    var i := |number| - 1;
    while i >= 0
      invariant -1 <= i < |number|
      invariant sum == Weighted(number[i + 1..])
      invariant alternate <==> (|number| - 1 - i) % 2 == 1
    {
      var digit := DigitValue(number[i]);
      if alternate {
        digit := digit * 2;
        if digit > 9 {
          digit := digit - 9;
        }
      }
      assert number[i..][1..] == number[i + 1..];
      sum := sum + digit;
      alternate := !alternate;
      i := i - 1;
    }
    assert number[0..] == number;
    d := (10 - sum % 10) % 10;
  }

  /** The Luhn check of a complete number: its weighted sum, counted from its
      own rightmost (check) digit, is a multiple of 10. */
  predicate LuhnValid(s: string)
    requires AllDigits(s)
  {
    Weighted(s) % 10 == 0
  }

  /** Appending a digit moves every earlier digit one place further from the right. */
  lemma {:induction false} WeightedFromAppend(p: string, c: char, shift: nat)
    requires AllDigits(p) && IsDigit(c)
    ensures AllDigits(p + [c])
    ensures WeightedFrom(p + [c], shift) == WeightedFrom(p, shift + 1) + Term(c, shift)
  {
    var s := p + [c];
    if p == [] {
      assert s[1..] == [];
    } else {
      assert s[1..] == p[1..] + [c];
      WeightedFromAppend(p[1..], c, shift);
    }
  }

  /** The digit that would make `payload + digit` pass the Luhn check. */
  function StandardCheckDigit(payload: string): (d: nat)
    requires AllDigits(payload)
    ensures d < 10
  {
    (10 - WeightedFrom(payload, 1) % 10) % 10
  }

  /** The standard digit is the one and only digit completing a Luhn-valid number. */
  lemma StandardCheckDigitUnique(payload: string, d: nat)
    requires AllDigits(payload) && d < 10
    ensures AllDigits(payload + [DigitChar(d)])
    ensures LuhnValid(payload + [DigitChar(d)]) <==> d == StandardCheckDigit(payload)
  {
    WeightedFromAppend(payload, DigitChar(d), 0);
    ComplementMod10(WeightedFrom(payload, 1), d);
  }

  /** The one digit that brings `w` to a multiple of 10. */
  lemma ComplementMod10(w: nat, d: nat)
    requires d < 10
    ensures (w + d) % 10 == 0 <==> d == (10 - w % 10) % 10
  {
  }

  /** The program's digit completes a Luhn-valid number exactly when it
      happens to coincide with the standard one. */
  lemma CheckDigitLuhnValidIff(payload: string)
    requires AllDigits(payload)
    ensures AllDigits(payload + [DigitChar(CheckDigitOf(payload))])
    ensures LuhnValid(payload + [DigitChar(CheckDigitOf(payload))])
            <==> CheckDigitOf(payload) == StandardCheckDigit(payload)
  {
    StandardCheckDigitUnique(payload, CheckDigitOf(payload));
  }

  /** On the payload 7992739871 the program appends 4, and 79927398714
      fails the Luhn check. */
  lemma CheckDigitIsNotLuhn()
    ensures CheckDigitOf("7992739871") == 4
    ensures !LuhnValid("79927398714")
  {
    SampleCheckDigit();
    SampleNotValid();
  }

  /** The Luhn-valid completion of the same payload is 79927398713. */
  lemma StandardCheckDigitSample()
    ensures StandardCheckDigit("7992739871") == 3
    ensures LuhnValid("79927398713")
  {
    SampleStandardDigit();
    SampleValid();
  }

  lemma SampleCheckDigit() ensures CheckDigitOf("7992739871") == 4 {}
  lemma SampleNotValid() ensures !LuhnValid("79927398714") {}
  lemma SampleStandardDigit() ensures StandardCheckDigit("7992739871") == 3 {}
  lemma SampleValid() ensures LuhnValid("79927398713") {}
}
