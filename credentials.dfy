/** Usernames and passwords: the random strings, the fixed word lists and
    the two dispatchers `generateUsername` and `generatePassword`. */
module Credentials {
  import opened Text
  import opened Entropy

  const Uppercase: string := "ABCDEFGHIJKLMNOPQRSTUVWXYZ"
  const Lowercase: string := "abcdefghijklmnopqrstuvwxyz"
  const DecimalDigits: string := "0123456789"
  const Symbols: string := "!@#$%^&*"

  /** The alphabet of `randomString`: `abcdefghijklmnopqrstuvwxyz0123456789`. */
  const Lower36: string := Lowercase + DecimalDigits

  /** The alphabet of `generateStrongPassword`: upper-case letters, lower-case
      letters, digits and the eight symbols `!@#$%^&*`, in that order. */
  const Strong70: string := Uppercase + Lowercase + DecimalDigits + Symbols

  /** The word list of `getDictionaryWord`. */
  const Words: seq<string> := ["alpha", "beta", "gamma", "delta", "epsilon", "zeta", "eta", "theta"]

  /** The four passwords `generatePatternPassword` chooses from. */
  const Patterns: seq<string> := ["Aa1!Bb2@", "Cc3#Dd4$", "Ee5%Ff6^", "Gg7&Hh8*"]

  /** `n` characters, the i-th being `alphabet.charAt(Math.floor(Math.random() * alphabet.length))`
      for the draw at position `at + i`. */
  function Drawn(alphabet: string, src: Stream, at: nat, n: nat): (r: string)
    requires |alphabet| > 0
    ensures |r| == n
    ensures forall i :: 0 <= i < n ==> r[i] in alphabet
  {
    if n == 0 then [] else Drawn(alphabet, src, at, n - 1) + [alphabet[Below(src, at + n - 1, |alphabet|)]]
  }

  /** `randomString(length)`. */
  method RandomString(length: nat, src: Stream, at: nat) returns (result: string, next: nat)
    ensures |result| == length
    ensures forall i :: 0 <= i < length ==> result[i] in Lower36
    ensures result == Drawn(Lower36, src, at, length)
    ensures next == at + length
  {
    var chars := Lower36;
    result := "";
    for i := 0 to length
      invariant result == Drawn(Lower36, src, at, i)
    {
      result := result + [chars[Below(src, at + i, |chars|)]];
      assert result == Drawn(Lower36, src, at, i + 1);
    }
    next := at + length;
  }

  /** `generateStrongPassword(length = 12)`. */
  method GenerateStrongPassword(src: Stream, at: nat, length: nat := 12) returns (password: string, next: nat)
    ensures |password| == length
    ensures forall i :: 0 <= i < length ==> password[i] in Strong70
    ensures password == Drawn(Strong70, src, at, length)
    ensures next == at + length
  {
    var chars := Strong70;
    password := "";
    for i := 0 to length
      invariant password == Drawn(Strong70, src, at, i)
    {
      password := password + [chars[Below(src, at + i, |chars|)]];
      assert password == Drawn(Strong70, src, at, i + 1);
    }
    next := at + length;
  }

  /** `getDictionaryWord()`. */
  function DictionaryWordOf(src: Stream, at: nat): (w: string)
    ensures w in Words
  {
    Words[Below(src, at, |Words|)]
  }

  /** `generatePatternPassword()`. */
  function PatternPasswordOf(src: Stream, at: nat): (p: string)
    ensures p in Patterns
  {
    Patterns[Below(src, at, |Patterns|)]
  }

  /** The value of the `usernamePattern` radio buttons. */
  datatype UsernamePattern = RandomName | SequentialName | DictionaryName

  /** The value of the `passwordOption` selector. */
  datatype PasswordOption = RandomPassword | FixedPassword | NumberPassword | PatternPassword | DictionaryPassword

  /** The key of a username pattern in the `patterns` table of `generateUsername`. */
  function PatternKey(pattern: UsernamePattern): string {
    match pattern
    case RandomName => "random"
    case SequentialName => "sequential"
    case DictionaryName => "dictionary"
  }

  /** The table lookup `patterns[key]`: nothing for a key the table lacks,
      which makes the call that follows throw. */
  function UsernamePatternOf(key: string): (pattern: Option<UsernamePattern>)
    ensures pattern.Some? <==> key in {"random", "sequential", "dictionary"}
    ensures pattern.Some? ==> PatternKey(pattern.value) == key
  {
    if key == "random" then Some(RandomName)
    else if key == "sequential" then Some(SequentialName)
    else if key == "dictionary" then Some(DictionaryName)
    else None
  }

  /** The key of a password option in the `generators` table of `generatePassword`. */
  function PasswordKey(option: PasswordOption): string {
    match option
    case RandomPassword => "random"
    case FixedPassword => "fixed"
    case NumberPassword => "numbers"
    case PatternPassword => "pattern"
    case DictionaryPassword => "dictionary"
  }

  /** The table lookup `generators[key]`, as for the username patterns. */
  function PasswordOptionOf(key: string): (option: Option<PasswordOption>)
    ensures option.Some? <==> key in {"random", "fixed", "numbers", "pattern", "dictionary"}
    ensures option.Some? ==> PasswordKey(option.value) == key
  {
    if key == "random" then Some(RandomPassword)
    else if key == "fixed" then Some(FixedPassword)
    else if key == "numbers" then Some(NumberPassword)
    else if key == "pattern" then Some(PatternPassword)
    else if key == "dictionary" then Some(DictionaryPassword)
    else None
  }

  /** Every pattern and every option is found under its own key. */
  lemma KeysRoundTrip(pattern: UsernamePattern, option: PasswordOption)
    ensures UsernamePatternOf(PatternKey(pattern)) == Some(pattern)
    ensures PasswordOptionOf(PasswordKey(option)) == Some(option)
  {
  }

  /** How many random draws one username takes. */
  function UsernameDraws(pattern: UsernamePattern): nat {
    match pattern
    case RandomName => 8
    case SequentialName => 0
    case DictionaryName => 2
  }

  /** How many random draws one password takes. */
  function PasswordDraws(option: PasswordOption): nat {
    match option
    case RandomPassword => 12
    case FixedPassword => 0
    case NumberPassword => 1
    case PatternPassword => 1
    case DictionaryPassword => 2
  }

  /** The username `generateUsername(pattern, index)` returns when its draws
      start at `at`. */
  function UsernameOf(pattern: UsernamePattern, index: nat, src: Stream, at: nat): string {
    match pattern
    case RandomName => Drawn(Lower36, src, at, 8)
    case SequentialName => "user" + PadStartZero(Decimal(index + 1), 6)
    case DictionaryName => DictionaryWordOf(src, at) + Decimal(RandomNumber(src, at + 1, 100, 999))
  }

  /** The password `generatePassword(type)` returns when its draws start at
      `at`; `fixedValue` is the text of the fixed-password field. */
  function PasswordOf(option: PasswordOption, fixedValue: string, src: Stream, at: nat): string {
    match option
    case RandomPassword => Drawn(Strong70, src, at, 12)
    case FixedPassword => if fixedValue != "" then fixedValue else "password123"
    case NumberPassword => Decimal(RandomNumber(src, at, 10000000, 99999999))
    case PatternPassword => PatternPasswordOf(src, at)
    case DictionaryPassword => DictionaryWordOf(src, at) + Decimal(RandomNumber(src, at + 1, 10, 99))
  }

  /** `generateUsername(pattern = 'random', index = 0)`. */
  method GenerateUsername(src: Stream, at: nat, pattern: UsernamePattern := RandomName, index: nat := 0)
    returns (username: string, next: nat)
    ensures username == UsernameOf(pattern, index, src, at)
    ensures next == at + UsernameDraws(pattern)
  {
    match pattern
    case RandomName =>
      username, next := RandomString(8, src, at);
    case SequentialName =>
      username, next := "user" + PadStartZero(Decimal(index + 1), 6), at;
    case DictionaryName =>
      username := DictionaryWordOf(src, at) + Decimal(RandomNumber(src, at + 1, 100, 999));
      next := at + 2;
  }

  /** `generatePassword(type)`. */
  method GeneratePassword(option: PasswordOption, fixedValue: string, src: Stream, at: nat)
    returns (password: string, next: nat)
    ensures password == PasswordOf(option, fixedValue, src, at)
    ensures next == at + PasswordDraws(option)
  {
    match option
    case RandomPassword =>
      password, next := GenerateStrongPassword(src, at);
    case FixedPassword =>
      password, next := if fixedValue != "" then fixedValue else "password123", at;
    case NumberPassword =>
      password, next := Decimal(RandomNumber(src, at, 10000000, 99999999)), at + 1;
    case PatternPassword =>
      password, next := PatternPasswordOf(src, at), at + 1;
    case DictionaryPassword =>
      password := DictionaryWordOf(src, at) + Decimal(RandomNumber(src, at + 1, 10, 99));
      next := at + 2;
  }

  /** A sequential username is `user` followed by index + 1 in decimal,
      zero-padded to at least six digits. */
  lemma SequentialUsername(index: nat, src: Stream, at: nat)
    ensures var u := UsernameOf(SequentialName, index, src, at);
      && u[..4] == "user"
      && AllDigits(u[4..])
      && |u[4..]| == (if |Decimal(index + 1)| >= 6 then |Decimal(index + 1)| else 6)
      && ParseDecimal(u[4..]) == index + 1
  {
    var d := Decimal(index + 1);
    var u := UsernameOf(SequentialName, index, src, at);
    var p := PadStartZero(d, 6);
    assert u == "user" + p;
    assert u[..4] == "user" && u[4..] == p;
    ParseDecimalOfDecimal(index + 1);
    if |d| < 6 {
      ParseDecimalLeadingZeros(6 - |d|, d);
    }
  }

  /** The first and the thousandth sequential usernames. */
  lemma SequentialUsernameSamples(src: Stream, at: nat)
    ensures UsernameOf(SequentialName, 0, src, at) == "user000001"
    ensures UsernameOf(SequentialName, 999, src, at) == "user001000"
  {
    assert Decimal(1) == "1";
    assert Decimal(1000) == "1000" by {
      assert Decimal(1) == "1";
      assert Decimal(10) == "10";
      assert Decimal(100) == "100";
    }
    assert Zeros(5) == "00000" && Zeros(2) == "00";
  }

  /** A decimal number drawn from [low, high] with both ends of `k` digits
      has `k` digits and reads back in range. */
  lemma DrawnNumberDigits(src: Stream, at: nat, low: nat, high: nat, k: nat)
    requires low <= high && k >= 1 && (k == 1 || Pow10(k - 1) <= low) && high < Pow10(k)
    ensures var s := Decimal(RandomNumber(src, at, low, high));
      |s| == k && AllDigits(s) && low <= ParseDecimal(s) <= high
  {
    var v := RandomNumber(src, at, low, high);
    ParseDecimalOfDecimal(v);
    DecimalLength(v, k);
  }

  lemma Pow10Values()
    ensures Pow10(1) == 10 && Pow10(2) == 100 && Pow10(3) == 1000
    ensures Pow10(7) == 10000000 && Pow10(8) == 100000000
  {
    assert Pow10(4) == 10000;
    assert Pow10(6) == 1000000;
  }


  /** A word of the list followed by a `k`-digit number in [low, high]. */
  ghost predicate WordThenNumber(s: string, k: nat, low: nat, high: nat) {
    && |s| >= k
    && s[..|s| - k] in Words
    && AllDigits(s[|s| - k..])
    && low <= ParseDecimal(s[|s| - k..]) <= high
  }

  /** What each username pattern produces. */
  lemma UsernameShape(pattern: UsernamePattern, index: nat, src: Stream, at: nat)
    ensures var u := UsernameOf(pattern, index, src, at);
      && (pattern == RandomName ==> |u| == 8 && forall i :: 0 <= i < 8 ==> u[i] in Lower36)
      && (pattern == SequentialName ==> u[..4] == "user" && ParseDecimal(u[4..]) == index + 1)
      && (pattern == DictionaryName ==> WordThenNumber(u, 3, 100, 999))
  {
    var u := UsernameOf(pattern, index, src, at);
    match pattern
    case RandomName =>
    case SequentialName =>
      SequentialUsername(index, src, at);
    case DictionaryName =>
      var w := DictionaryWordOf(src, at);
      Pow10Values();
      DrawnNumberDigits(src, at + 1, 100, 999, 3);
      assert u[..|u| - 3] == w;
  }

  /** What each password option produces; an empty fixed field gives
      `password123`. */
  lemma PasswordShape(option: PasswordOption, fixedValue: string, src: Stream, at: nat)
    ensures var p := PasswordOf(option, fixedValue, src, at);
      && (option == RandomPassword ==> |p| == 12 && forall i :: 0 <= i < 12 ==> p[i] in Strong70)
      && (option == FixedPassword ==> p == (if fixedValue == "" then "password123" else fixedValue))
      && (option == NumberPassword ==> |p| == 8 && AllDigits(p) && 10000000 <= ParseDecimal(p) <= 99999999)
      && (option == PatternPassword ==> p in Patterns)
      && (option == DictionaryPassword ==> WordThenNumber(p, 2, 10, 99))
      && p != ""
  {
    var p := PasswordOf(option, fixedValue, src, at);
    match option
    case RandomPassword =>
    case FixedPassword =>
    case NumberPassword =>
      Pow10Values();
      DrawnNumberDigits(src, at, 10000000, 99999999, 8);
    case PatternPassword =>
    case DictionaryPassword =>
      var w := DictionaryWordOf(src, at);
      Pow10Values();
      DrawnNumberDigits(src, at + 1, 10, 99, 2);
      assert p[..|p| - 2] == w;
  }

  /** Characters drawn from an alphabet without a line break hold none. */
  lemma DrawnNoNewline(alphabet: string, src: Stream, at: nat, n: nat)
    requires |alphabet| > 0 && '\n' !in alphabet
    ensures '\n' !in Drawn(alphabet, src, at, n)
  {
    var r := Drawn(alphabet, src, at, n);
    forall i | 0 <= i < n
      ensures r[i] != '\n'
    {
      assert r[i] in alphabet;
    }
  }

  /** Neither alphabet holds a line break. */
  lemma AlphabetsNoNewline()
    ensures '\n' !in Lower36
    ensures '\n' !in Strong70
  {
    assert '\n' !in Uppercase && '\n' !in Lowercase;
    assert '\n' !in DecimalDigits && '\n' !in Symbols;
  }

  /** No dictionary word and no pattern password holds a line break. */
  lemma TablesNoNewline()
    ensures forall w :: w in Words ==> OneLine(w)
    ensures forall p :: p in Patterns ==> OneLine(p)
  {
  }

  /** Every username pattern yields a non-empty name on one line. */
  lemma UsernameOneLine(pattern: UsernamePattern, index: nat, src: Stream, at: nat)
    ensures OneLine(UsernameOf(pattern, index, src, at))
  {
    match pattern
    case RandomName =>
      AlphabetsNoNewline();
      DrawnNoNewline(Lower36, src, at, 8);
    case SequentialName =>
      PadStartZeroDigits(Decimal(index + 1), 6);
      DigitsNoNewline(PadStartZero(Decimal(index + 1), 6));
    case DictionaryName =>
      TablesNoNewline();
      DigitsNoNewline(Decimal(RandomNumber(src, at + 1, 100, 999)));
  }

  /** Every password option yields a non-empty password on one line, as
      long as the fixed password typed into the form has no line break. */
  lemma PasswordOneLine(option: PasswordOption, fixedValue: string, src: Stream, at: nat)
    requires '\n' !in fixedValue
    ensures OneLine(PasswordOf(option, fixedValue, src, at))
  {
    match option
    case RandomPassword =>
      AlphabetsNoNewline();
      DrawnNoNewline(Strong70, src, at, 12);
    case FixedPassword =>
    case NumberPassword =>
      DigitsNoNewline(Decimal(RandomNumber(src, at, 10000000, 99999999)));
    case PatternPassword =>
      TablesNoNewline();
    case DictionaryPassword =>
      TablesNoNewline();
      DigitsNoNewline(Decimal(RandomNumber(src, at + 1, 10, 99)));
  }
}
