/** The root command (cmd/root.go): the default language taken from `LANG`,
    the choice between reading standard input and running the arguments as a
    shell command, the source label that names the input, and the prompt
    composed from label, captured output, language and custom prompt.
    Reading standard input and running the command are I/O: their outcome
    enters as a `Result` parameter. */
module Root {
  import opened Wrappers
  import opened Text
  import opened Templates
  import opened Language

  /** Source label used when the input is read from standard input. */
  const PipelineLabel: string := "Input from pipeline"

  /** Shell used when `SHELL` is empty or unset. */
  const FallbackShell: string := "/bin/sh"

  const EnglishTemplate: Template := Template(
    "Executed command or input source: ",
    "\nOutput:\n",
    "\nWhat does this output indicate? Are there any issues or further actions required?")

  const JapaneseTemplate: Template := Template(
    "実行されたコマンドまたは入力ソース: ",
    "\n出力:\n",
    "\nこの出力が示すものは何ですか？ 問題はありますか、またはさらなるアクションが必要ですか？")

  /** With a custom prompt, the prompt leads and no closing question follows. */
  function CustomTemplate(customPrompt: string): Template {
    Template(customPrompt + "\nExecuted command or input source: ", "\nOutput:\n", "")
  }

  /** The template `generateFullOutput` fills, in its priority order: a
      non-empty custom prompt first, then English, then Japanese; any other
      language has none (there is no English fallback). */
  function TemplateFor(language: string, customPrompt: string): Option<Template> {
    if customPrompt != "" then Some(CustomTemplate(customPrompt))
    else if language == English then Some(EnglishTemplate)
    else if language == Japanese then Some(JapaneseTemplate)
    else None
  }

  /** The prompt sent to the chat API. */
  function GenerateFullOutput(language: string, executedCommand: string, output: string,
                              customPrompt: string): (r: string)
    ensures customPrompt != "" ==>
      r == customPrompt + "\nExecuted command or input source: " + executedCommand
           + "\nOutput:\n" + output
    ensures customPrompt == "" && language == "en" ==>
      r == "Executed command or input source: " + executedCommand + "\nOutput:\n" + output
           + "\nWhat does this output indicate? Are there any issues or further actions required?"
    ensures customPrompt == "" && language == "ja" ==>
      r == "実行されたコマンドまたは入力ソース: " + executedCommand + "\n出力:\n" + output
           + "\nこの出力が示すものは何ですか？ 問題はありますか、またはさらなるアクションが必要ですか？"
    ensures r == "" <==> customPrompt == "" && !Supported(language)
  {
    match TemplateFor(language, customPrompt)
    case Some(t) => Fill(t, executedCommand, output)
    case None => ""
  }

  /** The prompt's size is the parts' sizes plus a fixed amount per branch
      (counted in characters; the Japanese constants are 193 bytes in UTF-8). */
  lemma FullOutputLength(language: string, executedCommand: string, output: string,
                         customPrompt: string)
    ensures customPrompt != "" ==>
      |GenerateFullOutput(language, executedCommand, output, customPrompt)|
        == |customPrompt| + |executedCommand| + |output| + 44
    ensures customPrompt == "" && language == English ==>
      |GenerateFullOutput(language, executedCommand, output, customPrompt)|
        == |executedCommand| + |output| + 125
    ensures customPrompt == "" && language == Japanese ==>
      |GenerateFullOutput(language, executedCommand, output, customPrompt)|
        == |executedCommand| + |output| + 69
  {
  }

  /** Command label and output are embedded verbatim: whenever a template
      fires, reading the prompt back against it returns both unchanged. */
  lemma FullOutputKeepsParts(language: string, executedCommand: string, output: string,
                             customPrompt: string)
    requires customPrompt != "" || Supported(language)
    ensures TemplateFor(language, customPrompt).Some?
    ensures Unfill(TemplateFor(language, customPrompt).value,
                   GenerateFullOutput(language, executedCommand, output, customPrompt),
                   |executedCommand|)
            == Some((executedCommand, output))
  {
  }

  /** A custom prompt decides the prompt on its own: the language is ignored. */
  lemma CustomPromptIgnoresLanguage(language1: string, language2: string,
                                    executedCommand: string, output: string,
                                    customPrompt: string)
    requires customPrompt != ""
    ensures GenerateFullOutput(language1, executedCommand, output, customPrompt)
         == GenerateFullOutput(language2, executedCommand, output, customPrompt)
  {
  }

  /** Default of `--language`: Japanese when `LANG` starts with "ja"
      (as in "ja_JP.UTF-8"), English otherwise. */
  function DefaultLanguage(langEnv: string): (r: string)
    ensures Supported(r)
    ensures r == Japanese <==> |langEnv| >= 2 && langEnv[0] == 'j' && langEnv[1] == 'a'
  {
    if |langEnv| >= 2 && langEnv[..2] == "ja" then Japanese else English
  }

  /** Value of `--language`: the flag when given, the `LANG` default otherwise. */
  function EffectiveLanguage(flag: Option<string>, langEnv: string): (r: string)
    ensures flag.Some? ==> r == flag.value
    ensures flag.None? ==> Supported(r) && (r == Japanese <==> DefaultLanguage(langEnv) == Japanese)
  {
    flag.GetOr(DefaultLanguage(langEnv))
  }

  /** Without the flag and a custom prompt, the prompt is never empty: the
      `LANG`-derived language always has a template. */
  lemma DefaultLanguageHasTemplate(langEnv: string, executedCommand: string, output: string)
    ensures TemplateFor(EffectiveLanguage(None, langEnv), "").Some?
    ensures GenerateFullOutput(EffectiveLanguage(None, langEnv), executedCommand, output, "") != ""
  {
  }

  /** The shell command the root command runs: `shell -c script`. */
  datatype ShellInvocation = ShellInvocation(shell: string, script: string) {
    function Argv(): seq<string> {
      [shell, "-c", script]
    }
  }

  /** Where the input comes from and what it is called in the prompt. */
  datatype Acquisition = Acquisition(source: string, spawn: Option<ShellInvocation>)

  /** Chooses the input: standard input when there are no arguments,
      otherwise the arguments joined with single spaces, run by `SHELL`. */
  function PlanAcquisition(args: seq<string>, shellEnv: string): (a: Acquisition)
    ensures a.spawn.None? <==> |args| == 0
    ensures |args| == 0 ==> a.source == PipelineLabel
    ensures a.spawn.Some? ==> a.spawn.value.script == a.source
    ensures a.spawn.Some? ==> a.spawn.value.Argv()[1] == "-c"
    ensures a.spawn.Some? ==> a.spawn.value.shell == (if shellEnv == "" then FallbackShell else shellEnv)
    ensures |args| >= 1 ==> a.source == Join(args, " ")
    ensures |args| >= 1 ==> |a.source| == TotalLength(args) + |args| - 1
  {
    if |args| == 0 then
      Acquisition(PipelineLabel, None)
    else
      var shell := if shellEnv == "" then FallbackShell else shellEnv;
      JoinLength(args, " ");
      Acquisition(Join(args, " "), Some(ShellInvocation(shell, Join(args, " "))))
  }

  /** The label names every argument, in order, at the offset given by the
      arguments and spaces before it. */
  lemma SourceNamesEachArgument(args: seq<string>, shellEnv: string, k: nat)
    requires k < |args|
    ensures OccursAt(PlanAcquisition(args, shellEnv).source, args[k],
                     TotalLength(args[..k]) + k)
  {
    JoinContainsEach(args, " ", k);
  }

  /** Between two neighbouring arguments the label holds exactly one space.
      With the label's length and `SourceNamesEachArgument`, this fixes the
      label character by character, whatever the arguments contain. */
  lemma SourceSpaceBetweenArguments(args: seq<string>, shellEnv: string, k: nat)
    requires k + 1 < |args|
    ensures OccursAt(PlanAcquisition(args, shellEnv).source, " ", TotalLength(args[..k + 1]) + k)
    ensures PlanAcquisition(args, shellEnv).source[TotalLength(args[..k + 1]) + k] == ' '
  {
    JoinSeparatorAt(args, " ", k);
    var at := TotalLength(args[..k + 1]) + k;
    assert PlanAcquisition(args, shellEnv).source[at..at + 1] == " ";
  }

  /** Arguments without spaces can be read back from the label (and from
      the script handed to the shell); with spaces they cannot, because
      joining forgets where one argument ended. */
  lemma SourceRecoversArguments(args: seq<string>, shellEnv: string)
    requires |args| >= 1
    requires FreeOf(args, ' ')
    ensures Split(PlanAcquisition(args, shellEnv).source, ' ') == args
    ensures Split(PlanAcquisition(args, shellEnv).spawn.value.script, ' ') == args
  {
    SplitJoin(args, ' ');
  }

  datatype RootError = StdinReadError(reason: string) | CommandExecutionError(reason: string)

  /** The root command from the planned input to the chat request:
      `captured` is the outcome of the I/O that `plan` chose. A failed read
      or command stops the run; otherwise the prompt is composed from the
      plan's source label and the captured text. */
  function RootPrompt(plan: Acquisition, captured: Result<string, string>,
                      language: string, customPrompt: string): (r: Result<string, RootError>)
    ensures r.Success? <==> captured.Success?
    ensures captured.Failure? && plan.spawn.None? ==> r == Failure(StdinReadError(captured.error))
    ensures captured.Failure? && plan.spawn.Some? ==> r == Failure(CommandExecutionError(captured.error))
    ensures captured.Success? ==>
      r.value == GenerateFullOutput(language, plan.source, captured.value, customPrompt)
  {
    match captured
    case Failure(e) =>
      if plan.spawn.None? then Failure(StdinReadError(e)) else Failure(CommandExecutionError(e))
    case Success(input) =>
      Success(GenerateFullOutput(language, plan.source, input, customPrompt))
  }

  /** Piped input, English, no custom prompt: the prompt names the pipeline
      and carries the text unchanged, followed by the fixed question. */
  lemma PipedInputPrompt(shellEnv: string, input: string)
    ensures PlanAcquisition([], shellEnv).spawn.None?
    ensures RootPrompt(PlanAcquisition([], shellEnv), Success(input), English, "")
         == Success("Executed command or input source: " + PipelineLabel + "\nOutput:\n" + input
                    + "\nWhat does this output indicate? Are there any issues or further actions required?")
  {
  }

  /** Whenever a template fires, the prompt composed for a command contains
      the captured output and every argument of the command verbatim. */
  lemma PromptNamesInputAndArguments(args: seq<string>, shellEnv: string, input: string,
                                     language: string, customPrompt: string, k: nat)
    requires customPrompt != "" || Supported(language)
    requires k < |args|
    ensures RootPrompt(PlanAcquisition(args, shellEnv), Success(input), language, customPrompt).Success?
    ensures Contains(RootPrompt(PlanAcquisition(args, shellEnv), Success(input), language, customPrompt).value,
                     input)
    ensures Contains(RootPrompt(PlanAcquisition(args, shellEnv), Success(input), language, customPrompt).value,
                     args[k])
  {
    var source := PlanAcquisition(args, shellEnv).source;
    var t := TemplateFor(language, customPrompt).value;
    var p := Fill(t, source, input);
    assert p == RootPrompt(PlanAcquisition(args, shellEnv), Success(input), language, customPrompt).value;
    assert OccursAt(p, input, |t.head| + |source| + |t.mid|);
    var off := TotalLength(args[..k]) + k;
    SourceNamesEachArgument(args, shellEnv, k);
    OccursWithin(p, source, args[k], |t.head|, off);
  }
}
