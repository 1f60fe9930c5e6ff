/** The string operations of JavaScript that the generator relies on:
    the decimal `toString` of a non-negative number, `padStart`,
    `slice(-2)`, `replace` with a string pattern, `trim` and `join`. */
module Text {

  datatype Option<T> = None | Some(value: T)

  predicate IsDigit(c: char) {
    '0' <= c <= '9'
  }

  predicate AllDigits(s: string) {
    forall i :: 0 <= i < |s| ==> IsDigit(s[i])
  }

  /** The value of a decimal digit character, what `parseInt` gives for it. */
  function DigitValue(c: char): (v: nat)
    requires IsDigit(c)
    ensures v < 10
  {
    c as int - '0' as int
  }

  /** The character of a single decimal digit. */
  function DigitChar(d: nat): (c: char)
    requires d < 10
    ensures IsDigit(c) && DigitValue(c) == d
  {
    ('0' as int + d) as char
  }

  /** `String(n)` / `n.toString()` for a non-negative integer below 10^21
      (from there on JavaScript switches to exponent notation): its decimal
      notation, no sign, no leading zero. Every number the generator
      formats is far below that bound. */
  function Decimal(n: nat): (s: string)
    ensures |s| > 0 && AllDigits(s)
    ensures n > 0 ==> s[0] != '0'
    decreases n
  {
    if n < 10 then [DigitChar(n)] else Decimal(n / 10) + [DigitChar(n % 10)]
  }

  /** The number a string of decimal digits denotes (leading zeros allowed). */
  function ParseDecimal(s: string): nat
    requires AllDigits(s)
  {
    if s == [] then 0 else 10 * ParseDecimal(s[..|s| - 1]) + DigitValue(s[|s| - 1])
  }

  /** The last character of the decimal notation is the units digit. */
  lemma DecimalLast(n: nat)
    ensures var s := Decimal(n); s[|s| - 1] == DigitChar(n % 10)
  {
  }

  lemma ParseTwo(a: char, b: char)
    requires IsDigit(a) && IsDigit(b)
    ensures ParseDecimal([a, b]) == 10 * DigitValue(a) + DigitValue(b)
  {
    var s := [a, b];
    assert s[..1] == [a];
    assert [a][..0] == [];
    assert ParseDecimal([a]) == DigitValue(a);
    assert ParseDecimal(s) == 10 * ParseDecimal(s[..1]) + DigitValue(s[1]);
  }

  /** Reading back the decimal notation gives the number. */
  lemma {:induction false} ParseDecimalOfDecimal(n: nat)
    ensures ParseDecimal(Decimal(n)) == n
    decreases n
  {
    var s := Decimal(n);
    if n >= 10 {
      ParseDecimalOfDecimal(n / 10);
      assert s[..|s| - 1] == Decimal(n / 10);
    }
  }

  /** Leading zeros do not change the value. */
  lemma {:induction false} ParseDecimalLeadingZeros(k: nat, s: string)
    requires AllDigits(s)
    ensures AllDigits(Zeros(k) + s) && ParseDecimal(Zeros(k) + s) == ParseDecimal(s)
    decreases |s|
  {
    var t := Zeros(k) + s;
    if s == [] {
      assert t == Zeros(k);
      ZerosParse(k);
    } else {
      assert t[..|t| - 1] == Zeros(k) + s[..|s| - 1];
      ParseDecimalLeadingZeros(k, s[..|s| - 1]);
    }
  }

  lemma {:induction false} ZerosParse(k: nat)
    ensures AllDigits(Zeros(k)) && ParseDecimal(Zeros(k)) == 0
  {
    if k > 0 {
      assert Zeros(k)[..k - 1] == Zeros(k - 1);
      ZerosParse(k - 1);
    }
  }

  function Pow10(k: nat): (p: nat)
    ensures p >= 1
  {
    if k == 0 then 1 else 10 * Pow10(k - 1)
  }

  /** A number with exactly `k` digits has a decimal notation of length `k`. */
  lemma {:induction false} DecimalLength(n: nat, k: nat)
    requires k >= 1 && (k == 1 || Pow10(k - 1) <= n) && n < Pow10(k)
    ensures |Decimal(n)| == k
    decreases k
  {
    if k > 1 {
      Pow10Grows(k - 2);
      DecimalLength(n / 10, k - 1);
    }
  }

  lemma {:induction false} Pow10Grows(k: nat)
    ensures Pow10(k + 1) >= 10
  {
    if k > 0 {
      Pow10Grows(k - 1);
    }
  }

  function Zeros(k: nat): (z: string)
    ensures |z| == k && forall i :: 0 <= i < k ==> z[i] == '0'
  {
    if k == 0 then [] else Zeros(k - 1) + "0"
  }

  /** `s.padStart(width, '0')`. */
  function PadStartZero(s: string, width: nat): (r: string)
    ensures |r| == if |s| >= width then |s| else width
    ensures r[|r| - |s|..] == s
    ensures forall i :: 0 <= i < |r| - |s| ==> r[i] == '0'
  {
    if |s| >= width then s else Zeros(width - |s|) + s
  }

  /** `s.slice(-2)`: the last two characters, or the whole string when shorter. */
  function SliceLastTwo(s: string): (r: string)
    ensures |s| >= 2 ==> |r| == 2 && s == s[..|s| - 2] + r
    ensures |s| < 2 ==> r == s
  {
    if |s| <= 2 then s else s[|s| - 2..]
  }

  /** `s.replace('@', '')`: a string pattern replaces its FIRST occurrence only. */
  function RemoveFirst(s: string, c: char): (r: string)
    ensures c !in s ==> r == s
    ensures c in s ==> |r| == |s| - 1
  {
    if s == [] then []
    else if s[0] == c then s[1..]
    else [s[0]] + RemoveFirst(s[1..], c)
  }

  /** Index of the first occurrence of `c`. */
  function FirstIndex(s: string, c: char): (i: nat)
    requires c in s
    ensures i < |s| && s[i] == c && c !in s[..i]
  {
    if s[0] == c then 0 else 1 + FirstIndex(s[1..], c)
  }

  /** What `RemoveFirst` removes is exactly the first occurrence, the rest is kept in order. */
  lemma {:induction false} RemoveFirstSplices(s: string, c: char)
    requires c in s
    ensures RemoveFirst(s, c) == s[..FirstIndex(s, c)] + s[FirstIndex(s, c) + 1..]
  {
    if s[0] != c {
      RemoveFirstSplices(s[1..], c);
      assert s[1..][..FirstIndex(s[1..], c)] == s[1..FirstIndex(s, c)];
    }
  }

  /** Whitespace as `String.prototype.trim` sees it, restricted to the
      ASCII and Latin-1 characters plus the byte order mark. */
  const Spaces: set<char> := {' ', '\t', '\n', '\r', '\U{B}', '\U{C}', '\U{A0}', '\U{FEFF}'}

  predicate IsSpace(c: char) {
    c in Spaces
  }

  function TrimStart(s: string): (r: string)
  {
    if s != [] && IsSpace(s[0]) then TrimStart(s[1..]) else s
  }

  function TrimEnd(s: string): (r: string)
  {
    if s != [] && IsSpace(s[|s| - 1]) then TrimEnd(s[..|s| - 1]) else s
  }

  /** `s.trim()`. */
  function Trim(s: string): string {
    TrimEnd(TrimStart(s))
  }

  /** `parts.join(sep)`. */
  function Join(parts: seq<string>, sep: string): string {
    if |parts| == 0 then []
    else if |parts| == 1 then parts[0]
    else parts[0] + sep + Join(parts[1..], sep)
  }

  lemma JoinTwo(a: string, b: string, sep: string)
    ensures Join([a, b], sep) == a + sep + b
  {
    assert [a, b][1..] == [b];
  }

  /** Splitting at every `'\n'`: the reading a consumer of the exported text does. */
  function SplitLines(s: string): (r: seq<string>)
    ensures |r| >= 1
  {
    if '\n' !in s then [s]
    else
      var i := FirstIndex(s, '\n');
      [s[..i]] + SplitLines(s[i + 1..])
  }

  predicate NoNewline(lines: seq<string>) {
    forall i :: 0 <= i < |lines| ==> '\n' !in lines[i]
  }

  /** A record that takes exactly one line of the text export: it is not
      empty and holds no line break. */
  predicate OneLine(s: string) {
    s != [] && '\n' !in s
  }

  /** A string of digits holds no line break. */
  lemma DigitsNoNewline(s: string)
    requires AllDigits(s)
    ensures '\n' !in s
  {
    forall i | 0 <= i < |s|
      ensures s[i] != '\n'
    {
      assert IsDigit(s[i]);
    }
  }

  /** Zero-padding a string of digits leaves a string of digits. */
  lemma PadStartZeroDigits(s: string, width: nat)
    requires AllDigits(s)
    ensures AllDigits(PadStartZero(s, width))
  {
    var r := PadStartZero(s, width);
    var k := |r| - |s|;
    forall i | 0 <= i < |r|
      ensures IsDigit(r[i])
    {
      if i >= k {
        assert r[i] == r[k..][i - k] == s[i - k];
      }
    }
  }

  /** The last two characters of a string of digits are digits. */
  lemma SliceLastTwoDigits(s: string)
    requires AllDigits(s)
    ensures AllDigits(SliceLastTwo(s))
  {
  }

  /** Joining lines with `'\n'` and splitting again gives the lines back,
      provided there is at least one and none holds a newline. */
  lemma {:induction false} SplitJoinLines(lines: seq<string>)
    requires |lines| >= 1 && NoNewline(lines)
    ensures SplitLines(Join(lines, "\n")) == lines
  {
    if |lines| > 1 {
      var s := Join(lines, "\n");
      var h := lines[0];
      assert s == h + "\n" + Join(lines[1..], "\n");
      assert s[|h|] == '\n';
      FirstIndexAfter(h, '\n', Join(lines[1..], "\n"));
      assert s[..|h|] == h;
      assert s[|h| + 1..] == Join(lines[1..], "\n");
      SplitJoinLines(lines[1..]);
      assert [lines[0]] + lines[1..] == lines;
    }
  }

  /** The first `c` of `h + [c] + t` is the one after `h` when `h` has none. */
  lemma FirstIndexAfter(h: string, c: char, t: string)
    requires c !in h
    ensures c in h + [c] + t && FirstIndex(h + [c] + t, c) == |h|
  {
    var s := h + [c] + t;
    assert s[|h|] == c;
  }
}
