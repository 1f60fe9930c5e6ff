/** The four combo builders, each producing one record per requested line,
    with the line-count clamp and the email-domain rule they depend on. */
module Combos {
  import opened Text
  import opened Entropy
  import opened Card
  import opened Credentials

  /** The clamp of `getLineCount`: `Math.max(Math.min(lines, 1000000), 1)`. */
  function ClampLineCount(requested: int): (lines: nat)
    ensures 1 <= lines <= 1000000
    ensures 1 <= requested <= 1000000 ==> lines == requested
    ensures requested < 1 ==> lines == 1
    ensures requested > 1000000 ==> lines == 1000000
  {
    var capped := if requested < 1000000 then requested else 1000000;
    if capped > 1 then capped else 1
  }

  /** `getEmailDomain()`: the custom domain, with its first `@` removed, when
      the selector says `custom` and the custom field is not empty; the
      selector's own value otherwise (so `custom` itself when that field is empty). */
  function EmailDomainOf(selected: string, custom: string): (domain: string)
    ensures !(selected == "custom" && custom != "") ==> domain == selected
    ensures selected == "custom" && custom != "" && '@' !in custom ==> domain == custom
    ensures selected == "custom" && custom != "" && '@' in custom ==>
      domain == custom[..FirstIndex(custom, '@')] + custom[FirstIndex(custom, '@') + 1..]
  {
    if selected == "custom" && custom != "" then
      (if '@' in custom then RemoveFirstSplices(custom, '@'); RemoveFirst(custom, '@')
       else RemoveFirst(custom, '@'))
    else selected
  }

  /** Only the first `@` of the custom domain goes. */
  lemma EmailDomainSample()
    ensures EmailDomainOf("custom", "@@corp.test") == "@corp.test"
    ensures EmailDomainOf("custom", "") == "custom"
    ensures EmailDomainOf("gmail.com", "x.org") == "gmail.com"
  {
    assert RemoveFirst("@@corp.test", '@') == "@corp.test";
  }

  /** The first `n` records of a builder, record `i` being `line(i)`. */
  function Build(line: nat -> string, n: nat): (records: seq<string>)
    ensures |records| == n
  {
    if n == 0 then [] else Build(line, n - 1) + [line(n - 1)]
  }

  /** A builder's output holds its records in line order. */
  lemma {:induction false} BuildInOrder(line: nat -> string, n: nat)
    ensures forall i :: 0 <= i < n ==> Build(line, n)[i] == line(i)
  {
    if n > 0 {
      BuildInOrder(line, n - 1);
    }
  }

  /** Growing the output by one line appends that line's record. */
  lemma BuildGrows(line: nat -> string, n: nat)
    ensures Build(line, n + 1) == Build(line, n) + [line(n)]
  {
  }

  /** Where record `i` starts drawing, when every record takes `k` draws. */
  function StartOf(at: nat, i: nat, k: nat): nat {
    at + i * k
  }

  /** Record `i + 1` starts one record's worth of draws after record `i`. */
  lemma NextStart(at: nat, i: nat, k: nat)
    ensures StartOf(at, i + 1, k) == StartOf(at, i, k) + k
  {
  }

  /** One email record: a random 8-character username, `@`, the domain, `:`
      and a password; the username's draws come first. */
  function EmailLineOf(domain: string, option: PasswordOption, fixedValue: string, src: Stream, at: nat): string {
    UsernameOf(RandomName, 0, src, at) + "@" + domain + ":" + PasswordOf(option, fixedValue, src, at + UsernameDraws(RandomName))
  }

  function EmailLineDraws(option: PasswordOption): nat {
    UsernameDraws(RandomName) + PasswordDraws(option)
  }

  /** Email record `i`, whose draws start `i` records' worth after `at`. */
  function EmailLines(domain: string, option: PasswordOption, fixedValue: string, src: Stream, at: nat): nat -> string {
    (i: nat) => EmailLineOf(domain, option, fixedValue, src, StartOf(at, i, EmailLineDraws(option)))
  }

  /** Record `i` is the username drawn at its start, `@`, the domain, `:`
      and the password drawn after the username. */
  lemma EmailLinesAt(domain: string, option: PasswordOption, fixedValue: string, src: Stream, at: nat, i: nat,
                     start: nat, username: string, afterUser: nat, password: string)
    requires start == StartOf(at, i, EmailLineDraws(option))
    requires username == UsernameOf(RandomName, 0, src, start) && afterUser == start + UsernameDraws(RandomName)
    requires password == PasswordOf(option, fixedValue, src, afterUser)
    ensures EmailLines(domain, option, fixedValue, src, at)(i) == username + "@" + domain + ":" + password
  {
    assert EmailLines(domain, option, fixedValue, src, at)(i) == EmailLineOf(domain, option, fixedValue, src, start);
  }

  lemma AtOutsideLower36()
    ensures '@' !in Lower36
  {
  }

  /** An email record begins with its 8-character username, and the first
      `@` of the record is the one right after it. */
  lemma EmailLineLayout(domain: string, option: PasswordOption, fixedValue: string, src: Stream, at: nat)
    ensures var line := EmailLineOf(domain, option, fixedValue, src, at);
      && |line| > 9 && line[8] == '@'
      && '@' !in line[..8]
      && (forall i :: 0 <= i < 8 ==> line[i] in Lower36)
      && line[9..9 + |domain|] == domain
      && line[9 + |domain|] == ':'
      && line[10 + |domain|..] == PasswordOf(option, fixedValue, src, at + 8)
  {
    var u := Drawn(Lower36, src, at, 8);
    var p := PasswordOf(option, fixedValue, src, at + 8);
    assert EmailLineOf(domain, option, fixedValue, src, at) == u + "@" + domain + ":" + p;
    EmailParts(u, domain, p);
  }

  /** Where the parts of `u@domain:p` sit, for an 8-character username `u`
      of lower-case alphanumerics. */
  lemma EmailParts(u: string, domain: string, p: string)
    requires |u| == 8 && forall i :: 0 <= i < 8 ==> u[i] in Lower36
    ensures var line := u + "@" + domain + ":" + p;
      && |line| > 9 && line[8] == '@'
      && '@' !in line[..8]
      && (forall i :: 0 <= i < 8 ==> line[i] in Lower36)
      && line[9..9 + |domain|] == domain
      && line[9 + |domain|] == ':'
      && line[10 + |domain|..] == p
  {
    var line := u + "@" + domain + ":" + p;
    FourParts(u + "@", domain, ":", p);
    assert line[..8] == u;
    AtOutsideLower36();
  }

  /** `generateEmailCombos(lines)`: the domain is read once, then each line
      draws a username and a password. */
  method GenerateEmailCombos(lines: nat, selectedDomain: string, customDomain: string,
                             option: PasswordOption, fixedValue: string, src: Stream, at: nat)
    returns (combos: seq<string>, next: nat)
    ensures combos == Build(EmailLines(EmailDomainOf(selectedDomain, customDomain), option, fixedValue, src, at), lines)
    ensures next == StartOf(at, lines, EmailLineDraws(option))
  {
    combos := [];
    var domain := EmailDomainOf(selectedDomain, customDomain);
    ghost var records := EmailLines(domain, option, fixedValue, src, at);
    next := at;
    for i := 0 to lines
      invariant next == StartOf(at, i, EmailLineDraws(option))
      invariant combos == Build(records, i)
    {
      var line;
      line, next := GenerateEmailLine(domain, option, fixedValue, src, at, i, next);
      BuildGrows(records, i);
      combos := combos + [line];
    }
  }

  /** One pass of the email loop: record `i`, drawn from `here`. */
  method GenerateEmailLine(domain: string, option: PasswordOption, fixedValue: string, src: Stream, at: nat,
                           i: nat, here: nat)
    returns (line: string, next: nat)
    requires here == StartOf(at, i, EmailLineDraws(option))
    ensures line == EmailLines(domain, option, fixedValue, src, at)(i)
    ensures next == StartOf(at, i + 1, EmailLineDraws(option))
  {
    var username, afterUser := GenerateUsername(src, here);
    var password, afterPassword := GeneratePassword(option, fixedValue, src, afterUser);
    line := username + "@" + domain + ":" + password;
    EmailLinesAt(domain, option, fixedValue, src, at, i, here, username, afterUser, password);
    NextStart(at, i, EmailLineDraws(option));
    next := afterPassword;
  }

  /** Record `i` of an email run is the email record drawn `i` records' worth after `at`. */
  lemma EmailRecordAt(domain: string, option: PasswordOption, fixedValue: string, src: Stream, at: nat,
                      lines: nat, i: nat)
    requires i < lines
    ensures Build(EmailLines(domain, option, fixedValue, src, at), lines)[i]
      == EmailLineOf(domain, option, fixedValue, src, StartOf(at, i, EmailLineDraws(option)))
  {
    var records := EmailLines(domain, option, fixedValue, src, at);
    BuildInOrder(records, lines);
    assert records(i) == EmailLineOf(domain, option, fixedValue, src, StartOf(at, i, EmailLineDraws(option)));
  }

  /** One username record: a username by the chosen pattern, `:` and a password. */
  function UserLineOf(pattern: UsernamePattern, index: nat, option: PasswordOption, fixedValue: string,
                      src: Stream, at: nat): string {
    UsernameOf(pattern, index, src, at) + ":" + PasswordOf(option, fixedValue, src, at + UsernameDraws(pattern))
  }

  function UserLineDraws(pattern: UsernamePattern, option: PasswordOption): nat {
    UsernameDraws(pattern) + PasswordDraws(option)
  }

  /** Username record `i`, whose draws start `i` records' worth after `at`. */
  function UserLines(pattern: UsernamePattern, option: PasswordOption, fixedValue: string, src: Stream, at: nat): nat -> string {
    (i: nat) => UserLineOf(pattern, i, option, fixedValue, src, StartOf(at, i, UserLineDraws(pattern, option)))
  }

  /** Record `i` is the username drawn at its start with index `i`, `:`
      and the password drawn after the username. */
  lemma UserLinesAt(pattern: UsernamePattern, option: PasswordOption, fixedValue: string, src: Stream, at: nat, i: nat,
                    start: nat, username: string, afterUser: nat, password: string)
    requires start == StartOf(at, i, UserLineDraws(pattern, option))
    requires username == UsernameOf(pattern, i, src, start) && afterUser == start + UsernameDraws(pattern)
    requires password == PasswordOf(option, fixedValue, src, afterUser)
    ensures UserLines(pattern, option, fixedValue, src, at)(i) == username + ":" + password
  {
    assert UserLines(pattern, option, fixedValue, src, at)(i) == UserLineOf(pattern, i, option, fixedValue, src, start);
  }

  /** With the sequential pattern, record `i` opens with `user`, then `i + 1`
      zero-padded to six digits at least, then `:`. */
  lemma SequentialUserLine(index: nat, option: PasswordOption, fixedValue: string, src: Stream, at: nat)
    ensures var line := UserLineOf(SequentialName, index, option, fixedValue, src, at);
      var u := UsernameOf(SequentialName, index, src, at);
      && line[..|u|] == u && line[|u|] == ':'
      && u[..4] == "user" && ParseDecimal(u[4..]) == index + 1
      && line[|u| + 1..] == PasswordOf(option, fixedValue, src, at)
  {
    var u := UsernameOf(SequentialName, index, src, at);
    var line := UserLineOf(SequentialName, index, option, fixedValue, src, at);
    var p := PasswordOf(option, fixedValue, src, at);
    SequentialUsername(index, src, at);
    assert line == u + ":" + p;
    ColonParts(u, p);
  }

  lemma ColonParts(u: string, p: string)
    ensures var line := u + ":" + p;
      line[..|u|] == u && line[|u|] == ':' && line[|u| + 1..] == p
  {
    var line := u + ":" + p;
    assert line[..|u|] == u;
    assert line[|u| + 1..] == p;
  }

  /** `generateUserCombos(lines)`: line `i` passes its own index to the username pattern. */
  method GenerateUserCombos(lines: nat, pattern: UsernamePattern, option: PasswordOption, fixedValue: string,
                            src: Stream, at: nat)
    returns (combos: seq<string>, next: nat)
    ensures combos == Build(UserLines(pattern, option, fixedValue, src, at), lines)
    ensures next == StartOf(at, lines, UserLineDraws(pattern, option))
  {
    combos := [];
    ghost var records := UserLines(pattern, option, fixedValue, src, at);
    next := at;
    for i := 0 to lines
      invariant next == StartOf(at, i, UserLineDraws(pattern, option))
      invariant combos == Build(records, i)
    {
      var line;
      line, next := GenerateUserLine(pattern, option, fixedValue, src, at, i, next);
      BuildGrows(records, i);
      combos := combos + [line];
    }
  }

  /** One pass of the username loop: record `i`, drawn from `here`. */
  method GenerateUserLine(pattern: UsernamePattern, option: PasswordOption, fixedValue: string, src: Stream,
                          at: nat, i: nat, here: nat)
    returns (line: string, next: nat)
    requires here == StartOf(at, i, UserLineDraws(pattern, option))
    ensures line == UserLines(pattern, option, fixedValue, src, at)(i)
    ensures next == StartOf(at, i + 1, UserLineDraws(pattern, option))
  {
    var username, afterUser := GenerateUsername(src, here, pattern, i);
    var password, afterPassword := GeneratePassword(option, fixedValue, src, afterUser);
    line := username + ":" + password;
    UserLinesAt(pattern, option, fixedValue, src, at, i, here, username, afterUser, password);
    NextStart(at, i, UserLineDraws(pattern, option));
    next := afterPassword;
  }

  /** Record `i` of a username run is the record drawn with index `i`,
      `i` records' worth after `at`. */
  lemma UserRecordAt(pattern: UsernamePattern, option: PasswordOption, fixedValue: string, src: Stream, at: nat,
                     lines: nat, i: nat)
    requires i < lines
    ensures Build(UserLines(pattern, option, fixedValue, src, at), lines)[i]
      == UserLineOf(pattern, i, option, fixedValue, src, StartOf(at, i, UserLineDraws(pattern, option)))
  {
    var records := UserLines(pattern, option, fixedValue, src, at);
    BuildInOrder(records, lines);
    assert records(i) == UserLineOf(pattern, i, option, fixedValue, src, StartOf(at, i, UserLineDraws(pattern, option)));
  }

  /** `getCardType()`: the selector's value, `visa` when it is empty. */
  function CardTypeOf(field: string): (cardType: string)
    ensures cardType != ""
    ensures field != "" ==> cardType == field
    ensures field == "" ==> cardType == "visa"
  {
    if field != "" then field else "visa"
  }

  /** One card record: the grouped number, `|`, the expiry date, `|`, the CVV,
      drawn in that order. */
  function CardLineOf(bin: string, cardType: string, currentYear: nat, src: Stream, at: nat): string
    requires AllDigits(bin)
  {
    var pad := PadCount(|bin|, cardType);
    GroupInFours(CardDigitsOf(bin, cardType, src, at)) + "|" + ExpiryOf(src, at + pad, currentYear)
      + "|" + CvvOf(cardType, src, at + pad + 2)
  }

  function CardLineDraws(bin: string, cardType: string): nat {
    PadCount(|bin|, cardType) + 3
  }

  /** Card record `i`, whose draws start `i` records' worth after `at`. */
  function CardLines(bin: string, cardType: string, currentYear: nat, src: Stream, at: nat): nat -> string
    requires AllDigits(bin)
  {
    (i: nat) => CardLineOf(bin, cardType, currentYear, src, StartOf(at, i, CardLineDraws(bin, cardType)))
  }

  /** Record `i` is the card number drawn at its start, then the expiry
      date and the CVV drawn after the number's padding. */
  lemma CardLinesAt(bin: string, cardType: string, currentYear: nat, src: Stream, at: nat, i: nat,
                    start: nat, cardNumber: string, afterCard: nat)
    requires AllDigits(bin)
    requires start == StartOf(at, i, CardLineDraws(bin, cardType))
    requires cardNumber == GroupInFours(CardDigitsOf(bin, cardType, src, start))
    requires afterCard == start + PadCount(|bin|, cardType)
    ensures cardNumber + "|" + ExpiryOf(src, afterCard, currentYear) + "|" + CvvOf(cardType, src, afterCard + 2)
      == CardLines(bin, cardType, currentYear, src, at)(i)
  {
    assert CardLines(bin, cardType, currentYear, src, at)(i) == CardLineOf(bin, cardType, currentYear, src, start);
  }

  /** The three fields of a card record: the card number drawn at `start`,
      then the expiry date and the CVV drawn after the number's padding. */
  lemma CardLineParts(bin: string, cardType: string, currentYear: nat, src: Stream, start: nat)
    requires AllDigits(bin)
    ensures CardLineOf(bin, cardType, currentYear, src, start)
      == GroupInFours(CardDigitsOf(bin, cardType, src, start)) + "|"
         + ExpiryOf(src, start + PadCount(|bin|, cardType), currentYear) + "|"
         + CvvOf(cardType, src, start + PadCount(|bin|, cardType) + 2)
  {
  }

  /** The BIN the card builder uses: the entered one, or else one drawn from
      the candidate list before the first line. */
  function ResolvedBinOf(binInput: string, src: Stream, at: nat): (bin: string)
    ensures binInput != "" ==> bin == binInput
    ensures binInput == "" ==> bin in Bins
  {
    if binInput != "" then binInput else RandomBinOf(src, at)
  }

  function BinDraws(binInput: string): nat {
    if binInput != "" then 0 else 1
  }

  /** The `lines` card records drawn from `at`: the BIN is resolved first,
      then record `i` is drawn `i` records' worth after it. */
  function CardRecords(binInput: string, cardTypeField: string, currentYear: nat, src: Stream, at: nat,
                       lines: nat): seq<string>
    requires AllDigits(binInput)
  {
    var bin := ResolvedBinOf(binInput, src, at);
    Build(CardLines(bin, CardTypeOf(cardTypeField), currentYear, src, at + BinDraws(binInput)), lines)
  }

  /** The first draw after `lines` card records drawn from `at`. */
  function CardNext(binInput: string, cardTypeField: string, src: Stream, at: nat, lines: nat): nat {
    var bin := ResolvedBinOf(binInput, src, at);
    StartOf(at + BinDraws(binInput), lines, CardLineDraws(bin, CardTypeOf(cardTypeField)))
  }

  /** Record `i` of a card run: the grouped card number drawn at the record's
      start, `|`, the expiry date and `|`, the CVV drawn after the padding,
      all with the BIN resolved once before the first record. */
  lemma CardRecordAt(binInput: string, cardTypeField: string, currentYear: nat, src: Stream, at: nat,
                     lines: nat, i: nat)
    requires AllDigits(binInput) && i < lines
    ensures var bin := ResolvedBinOf(binInput, src, at);
      var cardType := CardTypeOf(cardTypeField);
      var start := StartOf(at + BinDraws(binInput), i, CardLineDraws(bin, cardType));
      && AllDigits(bin)
      && CardRecords(binInput, cardTypeField, currentYear, src, at, lines)[i]
         == GroupInFours(CardDigitsOf(bin, cardType, src, start)) + "|"
            + ExpiryOf(src, start + PadCount(|bin|, cardType), currentYear) + "|"
            + CvvOf(cardType, src, start + PadCount(|bin|, cardType) + 2)
  {
    var bin := ResolvedBinOf(binInput, src, at);
    var cardType := CardTypeOf(cardTypeField);
    var start := StartOf(at + BinDraws(binInput), i, CardLineDraws(bin, cardType));
    CardRecordIs(binInput, cardTypeField, currentYear, src, at, lines, i);
    CardLineParts(bin, cardType, currentYear, src, start);
  }

  /** Record `i` of a card run is the card record drawn `i` records' worth
      after the BIN draw. */
  lemma CardRecordIs(binInput: string, cardTypeField: string, currentYear: nat, src: Stream, at: nat,
                     lines: nat, i: nat)
    requires AllDigits(binInput) && i < lines
    ensures var bin := ResolvedBinOf(binInput, src, at);
      var cardType := CardTypeOf(cardTypeField);
      && AllDigits(bin)
      && CardRecords(binInput, cardTypeField, currentYear, src, at, lines)[i]
         == CardLineOf(bin, cardType, currentYear, src, StartOf(at + BinDraws(binInput), i, CardLineDraws(bin, cardType)))
  {
    var bin := ResolvedBinOf(binInput, src, at);
    var cardType := CardTypeOf(cardTypeField);
    var records := CardLines(bin, cardType, currentYear, src, at + BinDraws(binInput));
    BuildInOrder(records, lines);
    assert records(i) == CardLineOf(bin, cardType, currentYear, src, StartOf(at + BinDraws(binInput), i, CardLineDraws(bin, cardType)));
  }

  /** `generateCreditCards(lines)`: the BIN and the card type are resolved
      once, then each line draws a card number, an expiry date and a CVV. */
  method GenerateCreditCards(lines: nat, binInput: string, cardTypeField: string, currentYear: nat,
                             src: Stream, at: nat)
    returns (combos: seq<string>, next: nat)
    requires AllDigits(binInput)
    ensures combos == CardRecords(binInput, cardTypeField, currentYear, src, at, lines)
    ensures next == CardNext(binInput, cardTypeField, src, at, lines)
  {
    combos := [];
    var bin := if binInput != "" then binInput else RandomBinOf(src, at);
    var start := if binInput != "" then at else at + 1;
    var cardType := CardTypeOf(cardTypeField);
    ghost var records := CardLines(bin, cardType, currentYear, src, start);
    next := start;
    for i := 0 to lines
      invariant next == StartOf(start, i, CardLineDraws(bin, cardType))
      invariant combos == Build(records, i)
    {
      var line;
      line, next := GenerateCardLine(bin, cardType, currentYear, src, start, i, next);
      BuildGrows(records, i);
      combos := combos + [line];
    }
  }

  /** One pass of the card loop: record `i`, drawn from `here`. */
  method GenerateCardLine(bin: string, cardType: string, currentYear: nat, src: Stream, at: nat,
                          i: nat, here: nat)
    returns (line: string, next: nat)
    requires AllDigits(bin)
    requires here == StartOf(at, i, CardLineDraws(bin, cardType))
    ensures line == CardLines(bin, cardType, currentYear, src, at)(i)
    ensures next == StartOf(at, i + 1, CardLineDraws(bin, cardType))
  {
    var cardNumber, afterCard := GenerateCardNumber(bin, cardType, src, here);
    var expiry := ExpiryOf(src, afterCard, currentYear);
    var cvv := CvvOf(cardType, src, afterCard + 2);
    line := cardNumber + "|" + expiry + "|" + cvv;
    CardLinesAt(bin, cardType, currentYear, src, at, i, here, cardNumber, afterCard);
    assert afterCard + 3 == here + CardLineDraws(bin, cardType);
    NextStart(at, i, CardLineDraws(bin, cardType));
    next := afterCard + 3;
  }

  /** The record of line `index` of custom generator 1 or 2. */
  function CustomLineOf(generatorId: int, index: nat, src: Stream, at: nat): string {
    if generatorId == 1 then "custom" + Decimal(index + 1) + ":data" + Drawn(Lower36, src, at, 8)
    else "combo" + Decimal(index + 1) + ":value" + Drawn(Lower36, src, at, 10)
  }

  function CustomLineDraws(generatorId: int): nat {
    if generatorId == 1 then 8 else 10
  }

  /** Custom record `i`, whose draws start `i` records' worth after `at`. */
  function CustomLines(generatorId: int, src: Stream, at: nat): nat -> string {
    (i: nat) => CustomLineOf(generatorId, i, src, StartOf(at, i, CustomLineDraws(generatorId)))
  }

  lemma CustomLinesAt(generatorId: int, src: Stream, at: nat, i: nat, start: nat)
    requires start == StartOf(at, i, CustomLineDraws(generatorId))
    ensures CustomLines(generatorId, src, at)(i) == CustomLineOf(generatorId, i, src, start)
  {
  }

  /** `generateCustomCombos(lines, generatorId)`: generator 1 gives
      `custom{i+1}:data` and 8 random characters, any other id gives
      `combo{i+1}:value` and 10. */
  method GenerateCustomCombos(lines: nat, generatorId: int, src: Stream, at: nat)
    returns (combos: seq<string>, next: nat)
    ensures combos == Build(CustomLines(generatorId, src, at), lines)
    ensures next == StartOf(at, lines, CustomLineDraws(generatorId))
  {
    combos := [];
    ghost var records := CustomLines(generatorId, src, at);
    next := at;
    for i := 0 to lines
      invariant next == StartOf(at, i, CustomLineDraws(generatorId))
      invariant combos == Build(records, i)
    {
      ghost var here := next;
      var tail;
      var line;
      if generatorId == 1 {
        tail, next := RandomString(8, src, next);
        line := "custom" + Decimal(i + 1) + ":data" + tail;
      } else {
        tail, next := RandomString(10, src, next);
        line := "combo" + Decimal(i + 1) + ":value" + tail;
      }
      CustomLinesAt(generatorId, src, at, i, here);
      NextStart(at, i, CustomLineDraws(generatorId));
      BuildGrows(records, i);
      combos := combos + [line];
    }
  }

  /** A custom record carries its 1-based line number after the fixed
      prefix, and ends in random lower-case alphanumerics. */
  lemma CustomLineLayout(generatorId: int, index: nat, src: Stream, at: nat)
    ensures var line := CustomLineOf(generatorId, index, src, at);
      var prefix := if generatorId == 1 then "custom" else "combo";
      var marker := if generatorId == 1 then ":data" else ":value";
      var n := CustomLineDraws(generatorId);
      var d := Decimal(index + 1);
      && line[..|prefix|] == prefix
      && line[|prefix|..|prefix| + |d|] == d && ParseDecimal(d) == index + 1
      && line[|prefix| + |d|..|line| - n] == marker
      && forall i :: |line| - n <= i < |line| ==> line[i] in Lower36
  {
    var prefix := if generatorId == 1 then "custom" else "combo";
    var marker := if generatorId == 1 then ":data" else ":value";
    var d := Decimal(index + 1);
    var r := Drawn(Lower36, src, at, CustomLineDraws(generatorId));
    assert CustomLineOf(generatorId, index, src, at) == prefix + d + marker + r;
    ParseDecimalOfDecimal(index + 1);
    FourParts(prefix, d, marker, r);
  }

  /** Where each of four concatenated strings sits in the result. */
  lemma FourParts(a: string, b: string, c: string, e: string)
    ensures var s := a + b + c + e;
      && s[..|a|] == a && s[|a|..|a| + |b|] == b && s[|a| + |b|..|s| - |e|] == c
      && forall i :: |s| - |e| <= i < |s| ==> s[i] == e[i - (|s| - |e|)]
  {
  }

  /** A builder whose every record fits on one line produces only such records. */
  lemma BuildOneLine(line: nat -> string, n: nat)
    requires forall i :: 0 <= i < n ==> OneLine(line(i))
    ensures forall i :: 0 <= i < n ==> OneLine(Build(line, n)[i])
  {
    BuildInOrder(line, n);
  }

  /** The email domain has a line break only if one of the two domain fields has. */
  lemma EmailDomainNoNewline(selected: string, custom: string)
    requires '\n' !in selected && '\n' !in custom
    ensures '\n' !in EmailDomainOf(selected, custom)
  {
    if selected == "custom" && custom != "" && '@' in custom {
      var k := FirstIndex(custom, '@');
      var domain := EmailDomainOf(selected, custom);
      forall j | 0 <= j < |domain|
        ensures domain[j] != '\n'
      {
        assert domain[j] == if j < k then custom[j] else custom[j + 1];
      }
    }
  }

  lemma EmailLineOneLine(domain: string, option: PasswordOption, fixedValue: string, src: Stream, at: nat)
    requires '\n' !in domain && '\n' !in fixedValue
    ensures OneLine(EmailLineOf(domain, option, fixedValue, src, at))
  {
    AddressOneLine(RandomName, 0, domain, option, fixedValue, src, at);
  }

  /** A username, `@`, a domain, `:` and a password, on one line whatever
      the username pattern. */
  lemma AddressOneLine(pattern: UsernamePattern, index: nat, domain: string, option: PasswordOption,
                       fixedValue: string, src: Stream, at: nat)
    requires '\n' !in domain && '\n' !in fixedValue
    ensures OneLine(UsernameOf(pattern, index, src, at) + "@" + domain + ":"
                    + PasswordOf(option, fixedValue, src, at + UsernameDraws(pattern)))
  {
    UsernameOneLine(pattern, index, src, at);
    PasswordOneLine(option, fixedValue, src, at + UsernameDraws(pattern));
  }

  /** Every record of an email run fits on one line. */
  lemma EmailRecordsOneLine(domain: string, option: PasswordOption, fixedValue: string, src: Stream, at: nat,
                            lines: nat)
    requires '\n' !in domain && '\n' !in fixedValue
    ensures forall i :: 0 <= i < lines ==> OneLine(Build(EmailLines(domain, option, fixedValue, src, at), lines)[i])
  {
    var line := EmailLines(domain, option, fixedValue, src, at);
    forall i | 0 <= i < lines
      ensures OneLine(line(i))
    {
      EmailLineOneLine(domain, option, fixedValue, src, StartOf(at, i, EmailLineDraws(option)));
    }
    BuildOneLine(line, lines);
  }

  lemma UserLineOneLine(pattern: UsernamePattern, index: nat, option: PasswordOption, fixedValue: string,
                        src: Stream, at: nat)
    requires '\n' !in fixedValue
    ensures OneLine(UserLineOf(pattern, index, option, fixedValue, src, at))
  {
    UsernameOneLine(pattern, index, src, at);
    PasswordOneLine(option, fixedValue, src, at + UsernameDraws(pattern));
  }

  /** Every record of a username run fits on one line. */
  lemma UserRecordsOneLine(pattern: UsernamePattern, option: PasswordOption, fixedValue: string, src: Stream,
                           at: nat, lines: nat)
    requires '\n' !in fixedValue
    ensures forall i :: 0 <= i < lines ==> OneLine(Build(UserLines(pattern, option, fixedValue, src, at), lines)[i])
  {
    var line := UserLines(pattern, option, fixedValue, src, at);
    forall i | 0 <= i < lines
      ensures OneLine(line(i))
    {
      UserLineOneLine(pattern, i, option, fixedValue, src, StartOf(at, i, UserLineDraws(pattern, option)));
    }
    BuildOneLine(line, lines);
  }

  lemma CardLineOneLine(bin: string, cardType: string, currentYear: nat, src: Stream, at: nat)
    requires AllDigits(bin)
    ensures OneLine(CardLineOf(bin, cardType, currentYear, src, at))
  {
    CardLineParts(bin, cardType, currentYear, src, at);
    CardNumberOneLine(bin, cardType, src, at);
    ExpiryOneLine(src, at + PadCount(|bin|, cardType), currentYear);
    CvvOneLine(cardType, src, at + PadCount(|bin|, cardType) + 2);
  }

  /** Every record of a card run fits on one line. */
  lemma CardRecordsOneLine(binInput: string, cardTypeField: string, currentYear: nat, src: Stream, at: nat,
                           lines: nat)
    requires AllDigits(binInput)
    ensures forall i :: 0 <= i < lines ==> OneLine(CardRecords(binInput, cardTypeField, currentYear, src, at, lines)[i])
  {
    var bin := ResolvedBinOf(binInput, src, at);
    var cardType := CardTypeOf(cardTypeField);
    var line := CardLines(bin, cardType, currentYear, src, at + BinDraws(binInput));
    forall i | 0 <= i < lines
      ensures OneLine(line(i))
    {
      CardLineOneLine(bin, cardType, currentYear, src, StartOf(at + BinDraws(binInput), i, CardLineDraws(bin, cardType)));
    }
    BuildOneLine(line, lines);
  }

  lemma CustomLineOneLine(generatorId: int, index: nat, src: Stream, at: nat)
    ensures OneLine(CustomLineOf(generatorId, index, src, at))
  {
    DigitsNoNewline(Decimal(index + 1));
    AlphabetsNoNewline();
    DrawnNoNewline(Lower36, src, at, CustomLineDraws(generatorId));
  }

  /** Every record of a custom run fits on one line. */
  lemma CustomRecordsOneLine(generatorId: int, src: Stream, at: nat, lines: nat)
    ensures forall i :: 0 <= i < lines ==> OneLine(Build(CustomLines(generatorId, src, at), lines)[i])
  {
    var line := CustomLines(generatorId, src, at);
    forall i | 0 <= i < lines
      ensures OneLine(line(i))
    {
      CustomLineOneLine(generatorId, i, src, StartOf(at, i, CustomLineDraws(generatorId)));
    }
    BuildOneLine(line, lines);
  }
}
