# PrimeX generator core, modelled in Dafny

PrimeX is a browser page that fills a text area with mock test data. Its
`PrimeXGenerator` class has five generators:

- email combos, `username@domain:password`;
- username combos, `username:password`;
- credit cards, `number|MM/YY|CVV`;
- two custom formats.

The records can be downloaded as plain text or as CSV. This project models
the data-generation core of that class in `app.js`:

- **Random draws.** `Math.random()` is a stream of real draws in [0, 1).
  Each `Math.floor(Math.random() * n)` reads one draw (module `Entropy`).
- **String built-ins** the core relies on (module `Text`): decimal
  `String(n)`, `padStart`, `slice(-2)`, `replace` with a string pattern,
  `trim` and `join`.
- **The check digit** `calculateLuhnCheckDigit`, and how it compares to
  the Luhn check of ISO/IEC 7812-1, Annex B (module `Luhn`).
- **Card data** (module `Card`): the card-number builder with its pad loop
  and grouping in fours, the random BIN, the expiry date and the CVV.
- **Credentials** (module `Credentials`): the random strings, the strong,
  pattern and dictionary passwords, and the `generateUsername` and
  `generatePassword` dispatchers.
- **The four builders** (module `Combos`), with the line-count clamp and
  the email-domain rule.
- **Download content** (module `Export`): text and CSV.
- **The generator object** (module `Session`): selection, `generateData`,
  clearing and download content.

## How the model is put together

- **Random draws are positions.** A method that draws takes a position
  `at` in the stream and returns the next unused position `next`.
  - One card record, for example, takes `PadCount + 3` draws.
  - A builder's record `i` starts at `StartOf(at, i, k)`, where `k` is a
    record's draw count.
  - So every method's result is a function of the stream and the
    starting position.
- **Loops stay loops.** The loops of the source are methods with `while`
  or `for` loops and invariants: the check-digit scan, the pad loop,
  `randomString`, `generateStrongPassword` and the four `generate*Combos`.
  Each is proved equal to a specification function:
  - `Weighted`/`CheckDigitOf` for the check-digit scan;
  - `CardDigitsOf` for the pad loop;
  - `Drawn` for the random strings;
  - `Build` over a per-record function for the builders.
  The lemmas are stated about those functions.
- **DOM reads are parameters.** Each form field the code reads becomes a
  parameter, and `Session.Form` collects them. `new Date().getFullYear()`
  becomes a `currentYear` parameter.
- **Unknown keys fail the run.** `generateUsername` and `generatePassword`
  look their key up in an object table, and an unknown key makes the call
  throw. The model turns the lookup into an `Option`. `generateData`
  catches the error and leaves `generatedData` unchanged; in the model it
  keeps the old records.
- **A card number is meant to pass the Luhn check.** The routine is
  `calculateLuhnCheckDigit`. The code does not achieve that: it runs over
  the payload as if it were the complete number (see Findings). The model
  follows the code. A BIN that is already long enough gets no padding, so
  the number then has one digit more than the BIN
  (`Card.CardDigitsLayout`).
- **Records fit on one line.** The downloads join the records with `\n`,
  so they read back as records only when no record holds a line break.
  `Session.RunNoNewline` assumes that the domain selector's value and the
  custom-domain and fixed-password fields hold no line break (a
  single-line text input strips them; the page markup is not modelled).
  Under that premise it proves every record of a run is one non-empty
  line. `Session.RunExportLines` then reads both downloads back.

## Model

| member | source | states |
|---|---|---|
| Entropy.Scale | app.js:365 | `Math.floor(u * n)` of a draw `u` in [0, 1) is below `n` |
| Entropy.RandomNumber | app.js:371-373 | `randomNumber(min, max)` lies in [min, max] |
| Text.RemoveFirst | app.js:330 | `replace('@', '')` leaves a string without `@` alone and otherwise removes exactly one character |
| Text.RemoveFirstSplices | app.js:330 | what `replace('@', '')` removes is the first `@`; the rest is kept in order |
| Text.PadStartZero | app.js:252 | `padStart(width, '0')` is as long as the longer of `s` and `width`, ends in `s` and holds only `0` before it |
| Text.SliceLastTwo | app.js:316 | `slice(-2)` is the last two characters, or the whole string when shorter |
| Text.ParseDecimalOfDecimal | app.js:252 | reading `String(n)` back as a decimal gives `n` |
| Text.SplitJoinLines | app.js:477 | splitting `join('\n')` of newline-free lines at `\n` gives the lines back |
| Luhn.CheckDigitOf | app.js:294-311 | the digit is in 0..9 and brings the payload's alternating sum (rightmost digit undoubled) to a multiple of 10 |
| Luhn.CalculateCheckDigit | app.js:294-311 | the right-to-left scan with the `alternate` flag returns that digit |
| Luhn.StandardCheckDigitUnique | app.js:294-311 | for the standard Luhn check, exactly one digit completes a payload into a valid number |
| Luhn.CheckDigitLuhnValidIff | app.js:290 | the number the code completes passes the Luhn check iff the code's digit equals the standard one |
| Luhn.CheckDigitIsNotLuhn | app.js:294-311 | payload 7992739871 gets 4, and 79927398714 fails the Luhn check |
| Luhn.StandardCheckDigitSample | app.js:294-311 | the standard digit for 7992739871 is 3, and 79927398713 passes the Luhn check |
| Card.PadCount | app.js:284-288 | the pad loop brings the length to the target less one, or leaves a BIN that is long enough as it is |
| Card.DrawnDigits | app.js:287 | the padding is `n` decimal digits |
| Card.CardDigitsLayout | app.js:282-290 | the ungrouped number starts with the BIN; its length is 15 for `amex` and otherwise 16, or one more than the BIN for a long BIN; the padding comes next; the last digit is the code's check digit for the rest |
| Card.StandardCardDigitsOf | app.js:282-290 | the intended card number: the same payload, the same length, completed with the standard digit, and it passes the Luhn check |
| Card.CardDigitsLuhnValidIff | app.js:282-290 | a number the program builds passes the Luhn check exactly when it equals the intended one |
| Card.GenerateCardNumber | app.js:282-292 | the pad loop, the check digit and the grouping give the grouped `CardDigitsOf` and consume one draw per padding digit |
| Card.SpaceAfterFours | app.js:291 | the regex `/(.{4})/g` replacement adds one space per full group of four |
| Card.GroupInFoursIsPrefix | app.js:291 | `trim()` removes only the trailing space, which exists exactly when the length is a multiple of 4 |
| Card.GroupedLayout | app.js:291 | the grouped number has spaces exactly at every fifth position, digits in order elsewhere, no space at either end, and one space fewer than there are started groups |
| Card.GroupRemoveSpaces | app.js:291 | deleting the spaces of the grouped number gives the digits back |
| Card.RandomBinOf | app.js:355-358 | the random BIN is one of the seven 4-digit candidates |
| Card.ExpiryYearsAhead | app.js:315 | the expiry is 1 to 5 years ahead |
| Card.ExpiryLayout | app.js:313-317 | the expiry reads `MM/YY`: the drawn month 01..12, then the last two digits of currentYear plus 1..5 |
| Card.LastTwoDigits | app.js:316 | `slice(-2)` of a year of two or more digits reads as the year mod 100 |
| Card.CvvRange | app.js:319-323 | the CVV has 4 digits in 1000..9999 for `amex` and otherwise 3 digits in 100..999 |
| Card.CardNumberOneLine | app.js:282-292 | the grouped card number of an all-digit BIN is non-empty and has no line break |
| Card.ExpiryOneLine | app.js:313-317 | the expiry is non-empty and has no line break |
| Card.CvvOneLine | app.js:319-323 | the CVV is non-empty and has no line break |
| Credentials.Drawn | app.js:360-369 | `n` characters, each from the alphabet |
| Credentials.RandomString | app.js:360-369 | the loop returns exactly `length` lower-case alphanumerics, one draw each |
| Credentials.GenerateStrongPassword | app.js:271-280 | the loop returns exactly `length` (12 by default) characters of the 70-symbol alphabet |
| Credentials.DictionaryWordOf | app.js:375-378 | the word is from the eight-word list |
| Credentials.PatternPasswordOf | app.js:1200-1208 | the password is one of the four patterns |
| Credentials.UsernamePatternOf | app.js:250-256 | the `patterns` table has exactly the keys `random`, `sequential` and `dictionary` |
| Credentials.PasswordOptionOf | app.js:260-268 | the `generators` table has exactly the keys `random`, `fixed`, `numbers`, `pattern` and `dictionary` |
| Credentials.KeysRoundTrip | app.js:250-268 | looking up a pattern's or an option's own key finds it |
| Credentials.GenerateUsername | app.js:249-257 | the dispatcher returns the chosen pattern's username and consumes its draws |
| Credentials.GeneratePassword | app.js:259-269 | the dispatcher returns the chosen option's password and consumes its draws |
| Credentials.SequentialUsername | app.js:252 | a sequential username is `user` and then index+1 in decimal, zero-padded to at least 6 digits |
| Credentials.SequentialUsernameSamples | app.js:252 | index 0 gives `user000001` and index 999 gives `user001000` |
| Credentials.UsernameShape | app.js:249-257 | random gives 8 lower-case alphanumerics, sequential `user` and index+1, dictionary a word and then a number in 100..999 |
| Credentials.PasswordShape | app.js:259-269 | random gives 12 strong characters, fixed the field or else `password123`, numbers 8 digits in 10000000..99999999, pattern one of the four, dictionary a word and then 10..99; never empty |
| Credentials.UsernameOneLine | app.js:249-257 | every username is non-empty and has no line break |
| Credentials.PasswordOneLine | app.js:259-269 | every password is non-empty and has no line break when the fixed-password field has none |
| Combos.ClampLineCount | app.js:340-344 | the count is clamped to [1, 1000000] and kept when inside |
| Combos.EmailDomainOf | app.js:325-334 | the custom domain with only its first `@` removed when `custom` is selected and the field is not empty, and otherwise the selector's value |
| Combos.EmailDomainSample | app.js:329-331 | `@@corp.test` gives `@corp.test`; an empty custom field gives `custom` |
| Combos.EmailDomainNoNewline | app.js:325-334 | the email domain has no line break when neither field has one |
| Combos.Build | app.js:196-201 | a builder yields exactly `lines` records |
| Combos.BuildInOrder | app.js:196-201 | record `i` of a builder is line `i`'s record |
| Combos.GenerateEmailCombos | app.js:192-204 | the loop builds the email records in line order, each drawing right after the previous one |
| Combos.GenerateEmailLine | app.js:197-200 | one pass draws the username and then the password, and joins them with the domain as `u@domain:p` |
| Combos.EmailRecordAt | app.js:197-201 | record `i` of an email run is the record drawn `i` records' worth after the start |
| Combos.EmailLineLayout | app.js:199-200 | an email record starts with 8 lower-case alphanumerics; its first `@` comes right after them; then the domain, `:` and the password |
| Combos.EmailRecordsOneLine | app.js:192-204 | every email record is non-empty and has no line break when the domain and the fixed password have none |
| Combos.GenerateUserCombos | app.js:206-218 | the loop builds the username records in line order, record `i` with index `i` |
| Combos.GenerateUserLine | app.js:211-214 | one pass draws `generateUsername(pattern, i)` and then the password, joined by `:` |
| Combos.UserRecordAt | app.js:211-215 | record `i` of a username run has index `i` and starts `i` records' worth after the start |
| Combos.SequentialUserLine | app.js:211-214 | a sequential record is `user`, index+1 zero-padded, `:` and the password |
| Combos.UserRecordsOneLine | app.js:206-218 | every username record is non-empty and has no line break when the fixed password has none |
| Combos.CardTypeOf | app.js:351-353 | the card type is the selector's value, or `visa` when it is empty |
| Combos.ResolvedBinOf | app.js:222 | the BIN is the entered one, or else a random candidate |
| Combos.GenerateCreditCards | app.js:220-233 | the BIN and the type are resolved once, then the loop builds the card records in line order |
| Combos.GenerateCardLine | app.js:226-229 | one pass draws the card number, then the expiry and the CVV, joined by vertical bars |
| Combos.CardRecordAt | app.js:222-230 | record `i` of a card run is the grouped number, expiry and CVV drawn `i` records' worth after the BIN draw |
| Combos.CardRecordsOneLine | app.js:220-233 | every card record of an all-digit BIN is non-empty and has no line break |
| Combos.GenerateCustomCombos | app.js:235-247 | the loop builds the custom records in line order |
| Combos.CustomLineLayout | app.js:239-243 | a custom record is `custom`/`combo`, then i+1 in decimal, then `:data`/`:value`, then 8 or 10 lower-case alphanumerics |
| Combos.CustomRecordsOneLine | app.js:235-247 | every custom record is non-empty and has no line break |
| Export.CsvRows | app.js:489 | one row per record, in order, row `i` being `i+1,record` |
| Export.DownloadContent | app.js:474-490 | there is no download exactly when there are no records |
| Export.CsvHeaderValue | app.js:488 | the header row is `Index,Data` |
| Export.TextLines | app.js:477 | splitting the text content at newlines gives the records back |
| Export.CsvRowFields | app.js:489-490 | a row's first comma splits it into the 1-based index and the record, whatever commas the record holds |
| Export.CsvLines | app.js:487-490 | the CSV content splits into `Index,Data` and one row per record, in order |
| Export.CsvSample | app.js:487-490 | `["a", "b"]` exports as `Index,Data\n1,a\n2,b` |
| Session.RunShape | app.js:145-190 | a run produces new records exactly for the five generators with known table keys, and then clamp(count) of them, between 1 and 1000000 |
| Session.CustomRunRecord | app.js:170-175 | record `i` of a `custom1`/`custom2` run is that generator's record `i` |
| Session.RunNoNewline | app.js:145-190 | every record of a successful run is non-empty and fits on one line |
| Session.RunExportLines | app.js:474-490 | for a successful run, the text download splits at its line breaks into exactly the records, and the CSV download into `Index,Data` and one row per record |
| Session.PrimeXGenerator.constructor | app.js:2-10 | the generator starts on `email`, with no records and no run in progress |
| Session.PrimeXGenerator.SwitchGenerator | app.js:78-79 | only the selection changes |
| Session.PrimeXGenerator.ClearAllData | app.js:519-520 | the records are emptied and nothing else changes |
| Session.PrimeXGenerator.GenerateData | app.js:145-190 | a run does nothing while one is in progress; otherwise a successful run replaces the records with the run's records, a failed run keeps the old ones, and the in-progress flag is cleared again |
| Session.PrimeXGenerator.Download | app.js:474-477 | no download exactly when there are no records; the plain-text content splits back into the records |

## Left out

- **The page itself** is not modelled: the DOM, events, animations, notifications, themes, languages, the sidebar and keyboard shortcuts. Their only inputs to the core are the form values, which are parameters here.
- **The clipboard, Blob downloads, local storage and file import** are foreign browser I/O. Only the content a download would write is modelled.
- **The JSON export** depends on `JSON.stringify` and a timestamp, and is not modelled.
- **Async code and timing** are left out: `simulateProcessing`, `performance.now()` and the generation statistics. `GenerateData` carries the try/catch/finally structure without the `await`.
- **`Math.random()` and the clock.** `Math.random()` is a parameter stream of real draws, with no floating-point rounding. The clock is the `currentYear` parameter.
- **Text-to-integer parsing** is left out. `parseInt` of the line-count field and its `NaN` case are not modelled; the count enters as an integer before the clamp.
- GenerateCreditCards: requires an all-digit BIN, because `parseInt` of any other character gives `NaN` in the check-digit loop.
- GenerateCardNumber: requires an all-digit BIN, for the same reason.
- **Object keys outside the tables.** A key such as `toString` finds a function on `Object.prototype` rather than `undefined`. The model treats every key outside the tables as missing.
- GenerateData: when a run throws, the draws it consumed are not tracked; `next` is then reported as `at`.
- **Whitespace for `trim()`** is limited to ASCII whitespace, no-break space and the byte order mark. Grouped card numbers only ever contain digits and spaces.
- ExpiryLayout: requires `currentYear >= 9`, so that the year has at least two digits; `slice(-2)` of a one-digit year is not described.
- **The displayed output area and the statistics** shown after a run are left out; they are presentation.

## Findings

| source | as written | input that shows it | evidently intended | confidence | as-written member | corrected member |
|---|---|---|---|---|---|---|
| app.js:294-311 | the check digit is computed over the payload as if its rightmost digit were the check position (`alternate` starts false), then appended | payload 7992739871: the code appends 4, and 79927398714 fails the Luhn check | the standard Luhn digit, which doubles the payload's rightmost digit; 3 here, giving the valid 79927398713 | high, not executed | Luhn.CheckDigitIsNotLuhn | Card.StandardCardDigitsOf |

`Luhn.StandardCheckDigitUnique` proves the standard digit is the only
one that completes a payload into a Luhn-valid number.
`Card.StandardCardDigitsOf` is the card number built with it. The record
builders keep the digit the code computes, since they model the program
as it runs. `Card.CardDigitsLuhnValidIff` states exactly when a generated
number passes the check anyway.
