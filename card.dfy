/** Mock card data: the card number built from a BIN, the expiry date and the CVV. */
module Card {
  import opened Text
  import opened Entropy
  import opened Luhn

  /** Number of digits of a complete card number: 15 for `amex`, 16 otherwise. */
  function TargetLength(cardType: string): (n: nat)
    ensures n == 15 || n == 16
  {
    if cardType == "amex" then 15 else 16
  }

  /** How many random digits the pad loop appends to a BIN of this length. */
  function PadCount(binLength: nat, cardType: string): (k: nat)
    ensures binLength + k == if binLength < TargetLength(cardType) - 1 then TargetLength(cardType) - 1 else binLength
  {
    if binLength < TargetLength(cardType) - 1 then TargetLength(cardType) - 1 - binLength else 0
  }

  /** `n` digits drawn as `Math.floor(Math.random() * 10)` from position `at` on. */
  function DrawnDigits(src: Stream, at: nat, n: nat): (r: string)
    ensures |r| == n && AllDigits(r)
  {
    if n == 0 then [] else DrawnDigits(src, at, n - 1) + [DigitChar(Below(src, at + n - 1, 10))]
  }

  /** The card number before grouping: the BIN, the padding digits, the check digit. */
  function CardDigitsOf(bin: string, cardType: string, src: Stream, at: nat): (r: string)
    requires AllDigits(bin)
    ensures AllDigits(r)
  {
    var payload := bin + DrawnDigits(src, at, PadCount(|bin|, cardType));
    payload + [DigitChar(CheckDigitOf(payload))]
  }

  /** The card number as the Luhn check intends it: the same payload,
      completed with the standard check digit. */
  function StandardCardDigitsOf(bin: string, cardType: string, src: Stream, at: nat): (r: string)
    requires AllDigits(bin)
    ensures AllDigits(r) && LuhnValid(r)
    ensures |r| == |CardDigitsOf(bin, cardType, src, at)|
    ensures r[..|r| - 1] == CardDigitsOf(bin, cardType, src, at)[..|r| - 1]
  {
    var payload := bin + DrawnDigits(src, at, PadCount(|bin|, cardType));
    StandardCheckDigitUnique(payload, StandardCheckDigit(payload));
    var r := payload + [DigitChar(StandardCheckDigit(payload))];
    assert r[..|r| - 1] == payload;
    assert CardDigitsOf(bin, cardType, src, at)[..|r| - 1] == payload;
    r
  }

  /** The number the program builds passes the Luhn check exactly when it
      is the standard one. */
  lemma CardDigitsLuhnValidIff(bin: string, cardType: string, src: Stream, at: nat)
    requires AllDigits(bin)
    ensures LuhnValid(CardDigitsOf(bin, cardType, src, at))
            <==> CardDigitsOf(bin, cardType, src, at) == StandardCardDigitsOf(bin, cardType, src, at)
  {
    var payload := bin + DrawnDigits(src, at, PadCount(|bin|, cardType));
    CheckDigitLuhnValidIff(payload);
    var r := CardDigitsOf(bin, cardType, src, at);
    var t := StandardCardDigitsOf(bin, cardType, src, at);
    if r == t {
      assert r[|r| - 1] == t[|t| - 1];
    }
  }

  /** What the ungrouped card number is made of: the BIN as a prefix, then
      random digits up to one short of the target length, then a digit that
      brings the weighted sum of the payload to a multiple of 10. A BIN that
      already has the target length less one, or more, gets no padding. */
  lemma CardDigitsLayout(bin: string, cardType: string, src: Stream, at: nat)
    requires AllDigits(bin)
    ensures var r := CardDigitsOf(bin, cardType, src, at);
      && bin <= r
      && (|bin| < TargetLength(cardType) - 1 ==> |r| == TargetLength(cardType))
      && (|bin| >= TargetLength(cardType) - 1 ==> |r| == |bin| + 1 && r[..|bin|] == bin)
      && r[|bin|..|r| - 1] == DrawnDigits(src, at, PadCount(|bin|, cardType))
      && AllDigits(r[..|r| - 1])
      && (Weighted(r[..|r| - 1]) + DigitValue(r[|r| - 1])) % 10 == 0
  {
    var payload := bin + DrawnDigits(src, at, PadCount(|bin|, cardType));
    var r := CardDigitsOf(bin, cardType, src, at);
    assert r[..|r| - 1] == payload;
    assert payload[..|bin|] == bin;
    assert r[|bin|..|r| - 1] == payload[|bin|..];
  }

  /** The four-character chunks of `s`, each followed by a space, as
      `s.replace(/(.{4})/g, '$1 ')` produces them on a string of digits. */
  function SpaceAfterFours(s: string): (r: string)
    requires AllDigits(s)
    ensures |r| == |s| + |s| / 4
  {
    if |s| < 4 then s else s[..4] + " " + SpaceAfterFours(s[4..])
  }

  /** The regex grouping followed by `trim()`. */
  function GroupInFours(s: string): string
    requires AllDigits(s)
  {
    Trim(SpaceAfterFours(s))
  }

  /** `generateCardNumber(bin, type)`: pad the BIN with random digits while it
      is shorter than the target length less one, append the check digit,
      and group the digits in fours. */
  method GenerateCardNumber(bin: string, cardType: string, src: Stream, at: nat) returns (card: string, next: nat)
    requires AllDigits(bin)
    ensures card == GroupInFours(CardDigitsOf(bin, cardType, src, at))
    ensures next == at + PadCount(|bin|, cardType)
  {
    var number := bin;
    var length := if cardType == "amex" then 15 else 16;
    next := at;
    ghost var pad := PadCount(|bin|, cardType);
    while |number| < length - 1
      invariant length == TargetLength(cardType)
      invariant at <= next <= at + pad
      invariant |number| == |bin| + (next - at)
      invariant number == bin + DrawnDigits(src, at, next - at)
      decreases length - 1 - |number|
    {
      DrawnStep(src, at, next - at);
      number := number + [DigitChar(Below(src, next, 10))];
      next := next + 1;
    }
    assert next - at == pad;
    var check := CalculateCheckDigit(number);
    number := number + [DigitChar(check)];
    card := GroupInFours(number);
  }

  lemma DrawnStep(src: Stream, at: nat, k: nat)
    ensures DrawnDigits(src, at, k + 1) == DrawnDigits(src, at, k) + [DigitChar(Below(src, at + k, 10))]
  {
  }

  /** The characters of `t` that are not the space. */
  function RemoveSpaces(t: string): (r: string)
    ensures |r| <= |t|
  {
    if t == [] then [] else (if t[0] == ' ' then [] else [t[0]]) + RemoveSpaces(t[1..])
  }

  lemma {:induction false} RemoveSpacesAppend(a: string, b: string)
    ensures RemoveSpaces(a + b) == RemoveSpaces(a) + RemoveSpaces(b)
    decreases |a|
  {
    if a != [] {
      assert (a + b)[0] == a[0];
      assert (a + b)[1..] == a[1..] + b;
      RemoveSpacesAppend(a[1..], b);
    } else {
      assert a + b == b;
    }
  }

  lemma {:induction false} RemoveSpacesOfDigits(s: string)
    requires AllDigits(s)
    ensures RemoveSpaces(s) == s
  {
    if s != [] {
      RemoveSpacesOfDigits(s[1..]);
      assert s == [s[0]] + s[1..];
    }
  }

  /** `g` is `s` with a space after every fourth character: position `k` of
      `g` holds a space exactly when `k % 5 == 4`, and otherwise the
      character of `s` at `k - k / 5`. */
  ghost predicate FoursLayout(g: string, s: string) {
    forall k :: 0 <= k < |g| ==>
      (g[k] == ' ' <==> k % 5 == 4) && (k % 5 != 4 ==> k - k / 5 < |s| && g[k] == s[k - k / 5])
  }

  /** Where the spaces go before trimming: after every fourth digit. */
  lemma SpaceAfterFoursLayout(s: string)
    requires AllDigits(s)
    ensures FoursLayout(SpaceAfterFours(s), s)
  {
    var g := SpaceAfterFours(s);
    forall k | 0 <= k < |g|
      ensures (g[k] == ' ' <==> k % 5 == 4) && (k % 5 != 4 ==> k - k / 5 < |s| && g[k] == s[k - k / 5])
    {
      LayoutAt(s, k);
    }
  }

  lemma {:induction false} LayoutAt(s: string, k: nat)
    requires AllDigits(s) && k < |SpaceAfterFours(s)|
    ensures var g := SpaceAfterFours(s);
      (g[k] == ' ' <==> k % 5 == 4) && (k % 5 != 4 ==> k - k / 5 < |s| && g[k] == s[k - k / 5])
    decreases |s|
  {
    var g := SpaceAfterFours(s);
    if |s| < 4 {
      FirstFive(k);
      assert g[k] == s[k];
    } else {
      var h := SpaceAfterFours(s[4..]);
      assert g == s[..4] + " " + h;
      if k >= 5 {
        LayoutAt(s[4..], k - 5);
        ShiftByFive(k);
        assert g[k] == h[k - 5];
      } else {
        FirstFive(k);
        if k < 4 {
          assert g[k] == s[k];
        }
      }
    }
  }

  lemma ShiftByFive(k: nat)
    requires k >= 5
    ensures (k - 5) % 5 == k % 5 && (k - 5) - (k - 5) / 5 + 4 == k - k / 5
  {
  }

  lemma FirstFive(k: nat)
    requires k < 5
    ensures k % 5 == k && k / 5 == 0
  {
  }

  lemma TrimOfDigitEnds(g: string)
    requires |g| > 0 && !IsSpace(g[0]) && !IsSpace(g[|g| - 1])
    ensures Trim(g) == g
  {
  }

  lemma TrimOneTrailingSpace(g: string)
    requires |g| > 1 && !IsSpace(g[0]) && g[|g| - 1] == ' ' && !IsSpace(g[|g| - 2])
    ensures Trim(g) == g[..|g| - 1]
  {
    assert TrimStart(g) == g;
    var h := g[..|g| - 1];
    assert h[|h| - 1] == g[|g| - 2];
    assert TrimEnd(h) == h;
  }

  /** Arithmetic of the grouped length `n` of an `m`-digit number. */
  lemma GroupedLength(m: nat)
    requires m > 0
    ensures var n := m + (m - 1) / 4;
      && (n - 1) % 5 != 4 && n - 1 - (n - 1) / 5 == m - 1
      && (m % 4 == 0 ==> n % 5 == 4 && m + m / 4 == n + 1)
      && (m % 4 != 0 ==> m + m / 4 == n)
  {
  }

  /** The grouped number is the digit string with the trailing space, present
      when the length is a multiple of four, trimmed off. */
  lemma GroupInFoursIsPrefix(s: string)
    requires AllDigits(s) && |s| > 0
    ensures var g := SpaceAfterFours(s); var n := |s| + (|s| - 1) / 4;
      && GroupInFours(s) == g[..n]
      && (|s| % 4 == 0 ==> g == g[..n] + " ")
      && (|s| % 4 != 0 ==> g == g[..n])
  {
    GroupEnds(s);
    TrimGrouped(SpaceAfterFours(s), |s| + (|s| - 1) / 4);
  }

  /** Trimming a string that runs from a digit to a digit at `n - 1`,
      followed by nothing or by one space, keeps its first `n` characters. */
  lemma TrimGrouped(g: string, n: nat)
    requires 0 < n <= |g| && IsDigit(g[0]) && IsDigit(g[n - 1])
    requires |g| == n || (|g| == n + 1 && g[n] == ' ')
    ensures Trim(g) == g[..n]
    ensures |g| == n + 1 ==> g == g[..n] + " "
    ensures |g| == n ==> g == g[..n]
  {
    if |g| == n + 1 {
      TrimOneTrailingSpace(g);
      assert g == g[..n] + " ";
    } else {
      TrimOfDigitEnds(g);
      assert g[..n] == g;
    }
  }

  /** The spaced-out number starts with a digit, and its `n`-th character,
      the last one the grouping keeps, is a digit followed by nothing or by
      the trailing space. */
  lemma GroupEnds(s: string)
    requires AllDigits(s) && |s| > 0
    ensures var g := SpaceAfterFours(s); var n := |s| + (|s| - 1) / 4;
      && 0 < n <= |g| && IsDigit(g[0]) && IsDigit(g[n - 1])
      && (|s| % 4 == 0 ==> |g| == n + 1 && g[n] == ' ')
      && (|s| % 4 != 0 ==> |g| == n)
  {
    var n := |s| + (|s| - 1) / 4;
    GroupedLength(|s|);
    FirstFive(0);
    LayoutAt(s, 0);
    LayoutAt(s, n - 1);
    if |s| % 4 == 0 {
      LayoutAt(s, n);
    }
  }

  /** The display form of a card number: groups of four digits separated by
      single spaces, the last group holding the remaining one to four digits,
      no space at either end; and deleting the spaces gives the digits back. */
  lemma GroupedLayout(s: string)
    requires AllDigits(s) && |s| > 0
    ensures var g := GroupInFours(s);
      && |g| == |s| + (|s| - 1) / 4
      && g[0] != ' ' && g[|g| - 1] != ' '
      && FoursLayout(g, s)
      && RemoveSpaces(g) == s
  {
    var full := SpaceAfterFours(s);
    var n := |s| + (|s| - 1) / 4;
    GroupInFoursIsPrefix(s);
    SpaceAfterFoursLayout(s);
    var g := GroupInFours(s);
    assert g == full[..n];
    forall k | 0 <= k < n
      ensures (g[k] == ' ' <==> k % 5 == 4) && (k % 5 != 4 ==> k - k / 5 < |s| && g[k] == s[k - k / 5])
    {
      assert g[k] == full[k];
    }
    assert FoursLayout(g, s);
    GroupedLength(|s|);
    assert |g| == n;
    assert g[0] != ' ';
    assert g[n - 1] != ' ';
    GroupRemoveSpaces(s);
  }

  lemma GroupRemoveSpaces(s: string)
    requires AllDigits(s) && |s| > 0
    ensures RemoveSpaces(GroupInFours(s)) == s
  {
    var g := SpaceAfterFours(s);
    var n := |s| + (|s| - 1) / 4;
    GroupInFoursIsPrefix(s);
    SpaceAfterFoursRemoveSpaces(s);
    if |s| % 4 == 0 {
      RemoveSpacesAppend(g[..n], " ");
      assert RemoveSpaces(" ") == [];
    }
  }

  lemma {:induction false} SpaceAfterFoursRemoveSpaces(s: string)
    requires AllDigits(s)
    ensures RemoveSpaces(SpaceAfterFours(s)) == s
    decreases |s|
  {
    if |s| < 4 {
      RemoveSpacesOfDigits(s);
    } else {
      SpaceAfterFoursRemoveSpaces(s[4..]);
      RemoveSpacesAppend(s[..4] + " ", SpaceAfterFours(s[4..]));
      RemoveSpacesAppend(s[..4], " ");
      RemoveSpacesOfDigits(s[..4]);
      assert RemoveSpaces(" ") == [];
      assert s[..4] + s[4..] == s;
    }
  }

  /** The grouped card number is non-empty and holds only digits and spaces,
      so no line break. */
  lemma CardNumberOneLine(bin: string, cardType: string, src: Stream, at: nat)
    requires AllDigits(bin)
    ensures OneLine(GroupInFours(CardDigitsOf(bin, cardType, src, at)))
  {
    var s := CardDigitsOf(bin, cardType, src, at);
    CardDigitsLayout(bin, cardType, src, at);
    GroupedLayout(s);
    var g := GroupInFours(s);
    forall k | 0 <= k < |g|
      ensures g[k] != '\n'
    {
      if k % 5 != 4 {
        assert IsDigit(s[k - k / 5]);
      }
    }
  }

  /** The BINs `generateRandomBIN` picks from when no BIN is entered. */
  const Bins: seq<string> := ["4532", "4916", "4485", "4716", "4024", "4175", "4571"]

  /** `generateRandomBIN()`: one of the seven candidates, picked uniformly. */
  function RandomBinOf(src: Stream, at: nat): (bin: string)
    ensures bin in Bins && |bin| == 4 && AllDigits(bin)
  {
    Bins[Below(src, at, |Bins|)]
  }

  /** The month part of `generateExpiryDate()`: a month drawn in 1..12, padded to two digits. */
  function ExpiryMonthOf(src: Stream, at: nat): string {
    PadStartZero(Decimal(Below(src, at, 12) + 1), 2)
  }

  /** The year offset the expiry date draws: 1 to 5 years from now. */
  function ExpiryYearsAhead(src: Stream, at: nat): (k: nat)
    ensures 1 <= k <= 5
  {
    Below(src, at + 1, 5) + 1
  }

  /** The year part: `year.toString().slice(-2)`. */
  function ExpiryYearOf(src: Stream, at: nat, currentYear: nat): string {
    SliceLastTwo(Decimal(currentYear + ExpiryYearsAhead(src, at)))
  }

  /** `generateExpiryDate()` with `new Date().getFullYear()` passed as
      `currentYear`; the month is drawn first, then the year offset. */
  function ExpiryOf(src: Stream, at: nat, currentYear: nat): string {
    ExpiryMonthOf(src, at) + "/" + ExpiryYearOf(src, at, currentYear)
  }

  /** An expiry date reads `MM/YY`: MM is the drawn month, 01 to 12, and YY
      is the last two digits of the current year plus one to five. */
  lemma ExpiryLayout(src: Stream, at: nat, currentYear: nat)
    requires currentYear >= 9
    ensures var e := ExpiryOf(src, at, currentYear);
      && |e| == 5 && e[2] == '/'
      && AllDigits(e[..2]) && AllDigits(e[3..])
      && ParseDecimal(e[..2]) == Below(src, at, 12) + 1
      && 1 <= ParseDecimal(e[..2]) <= 12
      && ParseDecimal(e[3..]) == (currentYear + ExpiryYearsAhead(src, at)) % 100
  {
    var m := Below(src, at, 12) + 1;
    var y := currentYear + ExpiryYearsAhead(src, at);
    ExpiryFields(m, y);
    assert ExpiryOf(src, at, currentYear) == PadStartZero(Decimal(m), 2) + "/" + SliceLastTwo(Decimal(y));
  }

  /** The `MM/YY` reading of month `m` and year `y`. */
  lemma ExpiryFields(m: nat, y: nat)
    requires 1 <= m <= 12 && y >= 10
    ensures var e := PadStartZero(Decimal(m), 2) + "/" + SliceLastTwo(Decimal(y));
      && |e| == 5 && e[2] == '/'
      && AllDigits(e[..2]) && AllDigits(e[3..])
      && ParseDecimal(e[..2]) == m
      && ParseDecimal(e[3..]) == y % 100
  {
    var month := PadStartZero(Decimal(m), 2);
    var yy := SliceLastTwo(Decimal(y));
    MonthDigits(m);
    LastTwoDigits(y);
    ExpiryParts(month, yy);
  }

  lemma ExpiryParts(month: string, yy: string)
    requires |month| == 2 && |yy| == 2
    ensures var e := month + "/" + yy;
      |e| == 5 && e[2] == '/' && e[..2] == month && e[3..] == yy
  {
    var e := month + "/" + yy;
    assert e[..2] == month;
    assert e[3..] == yy;
  }

  /** A month padded to two digits reads back as that month. */
  lemma MonthDigits(m: nat)
    requires 1 <= m <= 12
    ensures var t := PadStartZero(Decimal(m), 2);
      |t| == 2 && AllDigits(t) && ParseDecimal(t) == m
  {
    ParseDecimalOfDecimal(m);
    if m < 10 {
      DecimalLength(m, 1);
      ParseDecimalLeadingZeros(1, Decimal(m));
    } else {
      DecimalLength(m, 2);
    }
  }

  /** `slice(-2)` of a year with at least two digits gives its last two digits. */
  lemma LastTwoDigits(y: nat)
    requires y >= 10
    ensures var t := SliceLastTwo(Decimal(y));
      |t| == 2 && AllDigits(t) && ParseDecimal(t) == y % 100
  {
    var tens := DigitChar((y / 10) % 10);
    var units := DigitChar(y % 10);
    LastTwoChars(y);
    ParseTwo(tens, units);
    TensAndUnits(y);
  }

  /** The last two characters of a number of two digits or more are its
      tens and units digits. */
  lemma LastTwoChars(y: nat)
    requires y >= 10
    ensures SliceLastTwo(Decimal(y)) == [DigitChar((y / 10) % 10), DigitChar(y % 10)]
  {
    var q := y / 10;
    var e := Decimal(q);
    var d := Decimal(y);
    assert d == e + [DigitChar(y % 10)];
    DecimalLast(q);
    assert |d| >= 2 && SliceLastTwo(d) == d[|d| - 2..];
    assert d[|d| - 2] == e[|e| - 1];
  }

  lemma TensAndUnits(y: nat)
    ensures 10 * ((y / 10) % 10) + y % 10 == y % 100
  {
  }

  /** `generateCVV(type)`: 1000 to 9999 for `amex`, 100 to 999 otherwise, in decimal. */
  function CvvOf(cardType: string, src: Stream, at: nat): string {
    if cardType == "amex" then Decimal(Below(src, at, 9000) + 1000)
    else Decimal(Below(src, at, 900) + 100)
  }

  /** An expiry date is two digit strings around a `/`, so one line. */
  lemma ExpiryOneLine(src: Stream, at: nat, currentYear: nat)
    ensures OneLine(ExpiryOf(src, at, currentYear))
  {
    PadStartZeroDigits(Decimal(Below(src, at, 12) + 1), 2);
    DigitsNoNewline(ExpiryMonthOf(src, at));
    SliceLastTwoDigits(Decimal(currentYear + ExpiryYearsAhead(src, at)));
    DigitsNoNewline(ExpiryYearOf(src, at, currentYear));
  }

  /** A CVV has four digits worth 1000..9999 for `amex`, three worth 100..999 otherwise. */
  lemma CvvRange(cardType: string, src: Stream, at: nat)
    ensures var c := CvvOf(cardType, src, at);
      && AllDigits(c)
      && (cardType == "amex" ==> |c| == 4 && 1000 <= ParseDecimal(c) <= 9999)
      && (cardType != "amex" ==> |c| == 3 && 100 <= ParseDecimal(c) <= 999)
  {
    if cardType == "amex" {
      var v := Below(src, at, 9000) + 1000;
      ParseDecimalOfDecimal(v);
      DecimalLength(v, 4);
    } else {
      var v := Below(src, at, 900) + 100;
      ParseDecimalOfDecimal(v);
      DecimalLength(v, 3);
    }
  }
  /** A CVV is a non-empty string of digits, so one line. */
  lemma CvvOneLine(cardType: string, src: Stream, at: nat)
    ensures OneLine(CvvOf(cardType, src, at))
  {
    DigitsNoNewline(CvvOf(cardType, src, at));
  }

}
