/** The generator object: which generator is selected, the records of the
    last run, and the dispatch of `generateData` to the four builders. */
module Session {
  import opened Text
  import opened Entropy
  import opened Card
  import opened Credentials
  import opened Combos
  import opened Export

  /** The form fields a run reads, as the page holds them. */
  datatype Form = Form(
    lineCount: int,
    emailDomain: string,
    customDomain: string,
    passwordOption: string,
    fixedPassword: string,
    usernamePattern: string,
    binInput: string,
    cardType: string)

  /** The records of a completed run and the next unused draw. */
  datatype Run = Run(data: seq<string>, next: nat)

  /** The email generator's run; it fails when the password option is unknown. */
  function EmailRun(form: Form, src: Stream, at: nat): Option<Run> {
    match PasswordOptionOf(form.passwordOption)
    case None => None
    case Some(option) =>
      var lines := ClampLineCount(form.lineCount);
      var domain := EmailDomainOf(form.emailDomain, form.customDomain);
      Some(Run(Build(EmailLines(domain, option, form.fixedPassword, src, at), lines),
               StartOf(at, lines, EmailLineDraws(option))))
  }

  /** The username generator's run; it fails when the pattern or the
      password option is unknown. */
  function UserRun(form: Form, src: Stream, at: nat): Option<Run> {
    match (UsernamePatternOf(form.usernamePattern), PasswordOptionOf(form.passwordOption))
    case (Some(pattern), Some(option)) =>
      var lines := ClampLineCount(form.lineCount);
      Some(Run(Build(UserLines(pattern, option, form.fixedPassword, src, at), lines),
               StartOf(at, lines, UserLineDraws(pattern, option))))
    case _ => None
  }

  /** The card generator's run, the BIN being resolved before the first record. */
  function CardRun(form: Form, currentYear: nat, src: Stream, at: nat): Run
    requires AllDigits(form.binInput)
  {
    var lines := ClampLineCount(form.lineCount);
    Run(CardRecords(form.binInput, form.cardType, currentYear, src, at, lines),
        CardNext(form.binInput, form.cardType, src, at, lines))
  }

  /** The run of custom generator `id`. */
  function CustomRun(id: int, form: Form, src: Stream, at: nat): Run {
    var lines := ClampLineCount(form.lineCount);
    Run(Build(CustomLines(id, src, at), lines), StartOf(at, lines, CustomLineDraws(id)))
  }

  /** The records `generateData` produces for the selected generator.
      There are none in two cases, and the old records stay. A generator
      that is none of the five matches no case of the `switch`, and the
      run completes without new records. A password option or a username
      pattern missing from its table makes the first record throw, and the
      error is reported instead. */
  function RunOf(generator: string, form: Form, currentYear: nat, src: Stream, at: nat): Option<Run>
    requires generator == "cc" ==> AllDigits(form.binInput)
  {
    if generator == "email" then EmailRun(form, src, at)
    else if generator == "user" then UserRun(form, src, at)
    else if generator == "cc" then Some(CardRun(form, currentYear, src, at))
    else if generator == "custom1" then Some(CustomRun(1, form, src, at))
    else if generator == "custom2" then Some(CustomRun(2, form, src, at))
    else None
  }

  /** A run produces new records exactly for the five generators, when
      their table keys are known, and then as many records as the clamped
      line count. */
  lemma RunShape(generator: string, form: Form, currentYear: nat, src: Stream, at: nat)
    requires generator == "cc" ==> AllDigits(form.binInput)
    ensures var run := RunOf(generator, form, currentYear, src, at);
      && (run.Some? <==>
           || (generator == "email" && PasswordOptionOf(form.passwordOption).Some?)
           || (generator == "user" && UsernamePatternOf(form.usernamePattern).Some?
                 && PasswordOptionOf(form.passwordOption).Some?)
           || generator in {"cc", "custom1", "custom2"})
      && (run.Some? ==> |run.value.data| == ClampLineCount(form.lineCount))
      && (run.Some? ==> 1 <= |run.value.data| <= 1000000)
  {
  }

  /** Record `i` of a custom run: `custom{i+1}:data` and 8 random characters
      for the first custom generator, `combo{i+1}:value` and 10 for the second. */
  lemma CustomRunRecord(generator: string, form: Form, currentYear: nat, src: Stream, at: nat, i: nat)
    requires generator == "custom1" || generator == "custom2"
    requires i < ClampLineCount(form.lineCount)
    ensures var id := if generator == "custom1" then 1 else 2;
      var run := RunOf(generator, form, currentYear, src, at);
      && run.Some? && i < |run.value.data|
      && run.value.data[i] == CustomLineOf(id, i, src, StartOf(at, i, CustomLineDraws(id)))
  {
    var id := if generator == "custom1" then 1 else 2;
    assert RunOf(generator, form, currentYear, src, at) == Some(CustomRun(id, form, src, at));
    BuildInOrder(CustomLines(id, src, at), ClampLineCount(form.lineCount));
  }

  /** Every record of a run is non-empty and fits on one line. This needs
      the BIN to be digits for the card generator, and no line break in the
      domain selector's value and the custom-domain and fixed-password
      fields; the page markup that would guarantee that is not modelled. */
  lemma RunNoNewline(generator: string, form: Form, currentYear: nat, src: Stream, at: nat)
    requires generator == "cc" ==> AllDigits(form.binInput)
    requires '\n' !in form.emailDomain && '\n' !in form.customDomain && '\n' !in form.fixedPassword
    ensures var run := RunOf(generator, form, currentYear, src, at);
      run.Some? ==> NoNewline(run.value.data) && forall i :: 0 <= i < |run.value.data| ==> run.value.data[i] != []
  {
    var lines := ClampLineCount(form.lineCount);
    var data: seq<string>;
    if generator == "email" {
      match PasswordOptionOf(form.passwordOption)
      case None => return;
      case Some(option) =>
        var domain := EmailDomainOf(form.emailDomain, form.customDomain);
        EmailDomainNoNewline(form.emailDomain, form.customDomain);
        EmailRecordsOneLine(domain, option, form.fixedPassword, src, at, lines);
        data := Build(EmailLines(domain, option, form.fixedPassword, src, at), lines);
    } else if generator == "user" {
      match (UsernamePatternOf(form.usernamePattern), PasswordOptionOf(form.passwordOption))
      case (Some(pattern), Some(option)) =>
        UserRecordsOneLine(pattern, option, form.fixedPassword, src, at, lines);
        data := Build(UserLines(pattern, option, form.fixedPassword, src, at), lines);
      case _ => return;
    } else if generator == "cc" {
      CardRecordsOneLine(form.binInput, form.cardType, currentYear, src, at, lines);
      data := CardRecords(form.binInput, form.cardType, currentYear, src, at, lines);
    } else if generator == "custom1" || generator == "custom2" {
      var id := if generator == "custom1" then 1 else 2;
      CustomRecordsOneLine(id, src, at, lines);
      data := Build(CustomLines(id, src, at), lines);
    } else {
      return;
    }
    assert RunOf(generator, form, currentYear, src, at).value.data == data;
    assert forall i :: 0 <= i < |data| ==> OneLine(data[i]);
  }

  /** The exports of a run: the text file splits at its line breaks into
      exactly the records, and the CSV file into the header and one row per
      record. */
  lemma RunExportLines(generator: string, form: Form, currentYear: nat, src: Stream, at: nat)
    requires generator == "cc" ==> AllDigits(form.binInput)
    requires '\n' !in form.emailDomain && '\n' !in form.customDomain && '\n' !in form.fixedPassword
    ensures var run := RunOf(generator, form, currentYear, src, at);
      run.Some? ==>
        && SplitLines(TextContent(run.value.data)) == run.value.data
        && var rows := SplitLines(CsvContent(run.value.data));
           && |rows| == |run.value.data| + 1 && rows[0] == "Index,Data"
           && forall i :: 0 <= i < |run.value.data| ==> rows[i + 1] == CsvRow(i, run.value.data[i])
  {
    var run := RunOf(generator, form, currentYear, src, at);
    if run.Some? {
      RunShape(generator, form, currentYear, src, at);
      RunNoNewline(generator, form, currentYear, src, at);
      TextLines(run.value.data);
      CsvLines(run.value.data);
    }
  }

  class PrimeXGenerator {
    /** The selected generator: `email`, `user`, `cc`, `custom1` or `custom2`. */
    var currentGenerator: string
    /** The records of the last successful run. */
    var generatedData: seq<string>
    /** Set while a run is in progress. */
    var isGenerating: bool

    constructor()
      ensures currentGenerator == "email" && generatedData == [] && !isGenerating
    {
      currentGenerator := "email";
      generatedData := [];
      isGenerating := false;
    }

    /** `switchGenerator(generator)`: only the selection changes. */
    method SwitchGenerator(generator: string)
      modifies this
      ensures currentGenerator == generator
      ensures generatedData == old(generatedData) && isGenerating == old(isGenerating)
    {
      currentGenerator := generator;
    }

    /** `clearAllData()`. */
    method ClearAllData()
      modifies this
      ensures generatedData == []
      ensures currentGenerator == old(currentGenerator) && isGenerating == old(isGenerating)
    {
      generatedData := [];
    }

    /** `generateData()`: ignored while a run is in progress; otherwise the
        selected builder replaces the records, unless the run fails, and the
        in-progress flag is cleared again at the end. */
    method GenerateData(form: Form, currentYear: nat, src: Stream, at: nat) returns (next: nat)
      requires currentGenerator == "cc" ==> AllDigits(form.binInput)
      modifies this
      ensures currentGenerator == old(currentGenerator) && isGenerating == old(isGenerating)
      ensures old(isGenerating) ==> generatedData == old(generatedData) && next == at
      ensures !old(isGenerating) ==>
        match RunOf(old(currentGenerator), form, currentYear, src, at)
        case None => generatedData == old(generatedData) && next == at
        case Some(run) => generatedData == run.data && next == run.next
    {
      next := at;
      if isGenerating {
        return;
      }
      isGenerating := true;
      var lines := ClampLineCount(form.lineCount);
      var generator := currentGenerator;
      if generator == "email" {
        var option := PasswordOptionOf(form.passwordOption);
        if option.Some? {
          generatedData, next := GenerateEmailCombos(lines, form.emailDomain, form.customDomain,
                                                     option.value, form.fixedPassword, src, at);
        }
      } else if generator == "user" {
        var pattern := UsernamePatternOf(form.usernamePattern);
        var option := PasswordOptionOf(form.passwordOption);
        if pattern.Some? && option.Some? {
          generatedData, next := GenerateUserCombos(lines, pattern.value, option.value, form.fixedPassword, src, at);
        }
      } else if generator == "cc" {
        generatedData, next := GenerateCreditCards(lines, form.binInput, form.cardType, currentYear, src, at);
      } else if generator == "custom1" {
        generatedData, next := GenerateCustomCombos(lines, 1, src, at);
      } else if generator == "custom2" {
        generatedData, next := GenerateCustomCombos(lines, 2, src, at);
      }
      isGenerating := false;
    }

    /** The content `downloadAsFile` writes: none when there are no records. */
    function Download(format: Format): (content: Option<string>)
      reads this
      ensures content.None? <==> |generatedData| == 0
      ensures content.Some? && format == PlainText && NoNewline(generatedData) ==>
        SplitLines(content.value) == generatedData
    {
      var content := DownloadContent(generatedData, format);
      if content.Some? && format == PlainText && NoNewline(generatedData) then
        TextLines(generatedData);
        content
      else content
    }
  }
}
