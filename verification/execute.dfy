/** The older `execute` subcommand (cmd/execute.go): at least one argument,
    a language that must be "en" or "ja", the first argument run as a program
    with the rest as its argv (no shell, no joining), and a prompt built from
    the command's rendering and its output. The rendering (Go's
    `exec.Cmd.String`) and the command's output are opaque inputs here. */
module Execute {
  import opened Wrappers
  import opened Text
  import opened Templates
  import opened Language

  /** Default of the subcommand's `--language` flag; unlike the root command
      it does not look at `LANG`. */
  const FlagDefault: string := English

  const EnglishTemplate: Template :=
    Template("Command executed: ", "\nResult:\n", "\nCan you explain this result?")

  const JapaneseTemplate: Template :=
    Template("実行したコマンド: ", "\n結果:\n", "\nこの結果について説明していただけますか？")

  datatype ExecError =
    | TooFewArgs(received: nat)
    | InvalidLanguage(language: string)
    | CommandFailed(reason: string)

  /** The program to run and the arguments it receives, unjoined. */
  datatype Invocation = Invocation(program: string, argv: seq<string>)

  /** The arity rule "at least one argument", then the split into program
      and argv. */
  function ValidateArgs(args: seq<string>): (r: Result<Invocation, ExecError>)
    ensures r.Success? <==> |args| >= 1
    ensures r.Failure? ==> r.error == TooFewArgs(|args|)
    ensures r.Success? ==> [r.value.program] + r.value.argv == args
  {
    if |args| < 1 then Failure(TooFewArgs(|args|))
    else Success(Invocation(args[0], args[1..]))
  }

  /** The pre-run check: anything but "en" or "ja" stops the subcommand
      before any command is run. */
  function ValidateLanguage(language: string): (r: Result<string, ExecError>)
    ensures r.Success? <==> language == "en" || language == "ja"
    ensures r.Success? ==> r.value == language
    ensures r.Failure? ==> r.error == InvalidLanguage(language)
  {
    if language != English && language != Japanese then Failure(InvalidLanguage(language))
    else Success(language)
  }

  /** The template the subcommand fills for `language`, if any. */
  function TemplateFor(language: string): Option<Template> {
    if language == English then Some(EnglishTemplate)
    else if language == Japanese then Some(JapaneseTemplate)
    else None
  }

  /** The prompt built inline by the subcommand; it stays "" for any
      language other than "en" and "ja". */
  function ExecutePrompt(language: string, rendered: string, output: string): (r: string)
    ensures language == "en" ==>
      r == "Command executed: " + rendered + "\nResult:\n" + output + "\nCan you explain this result?"
    ensures language == "ja" ==>
      r == "実行したコマンド: " + rendered + "\n結果:\n" + output + "\nこの結果について説明していただけますか？"
    ensures r == "" <==> !Supported(language)
  {
    match TemplateFor(language)
    case Some(t) => Fill(t, rendered, output)
    case None => ""
  }

  /** Rendering and output are embedded verbatim and in order: reading the
      prompt back against its template returns both unchanged. */
  lemma ExecutePromptKeepsParts(language: string, rendered: string, output: string)
    requires Supported(language)
    ensures TemplateFor(language).Some?
    ensures Unfill(TemplateFor(language).value, ExecutePrompt(language, rendered, output), |rendered|)
            == Some((rendered, output))
    ensures |ExecutePrompt(language, rendered, output)|
            == |rendered| + |output| + (if language == English then 56 else 36)
  {
  }

  /** The subcommand up to the chat request. The arity rule is checked
      first, then the language, then the command runs (`captured` is its
      outcome, `rendered` its rendering), and the prompt is composed. */
  function ExecuteRun(args: seq<string>, language: string, rendered: string,
                      captured: Result<string, string>): (r: Result<string, ExecError>)
    ensures r.Success? <==> |args| >= 1 && Supported(language) && captured.Success?
    ensures |args| == 0 ==> r == Failure(TooFewArgs(0))
    ensures |args| >= 1 && !Supported(language) ==> r == Failure(InvalidLanguage(language))
    ensures |args| >= 1 && Supported(language) && captured.Failure? ==>
      r == Failure(CommandFailed(captured.error))
    ensures r.Success? ==> r.value == ExecutePrompt(language, rendered, captured.value)
    ensures r.Success? ==> r.value != ""
    ensures r.Success? ==> Contains(r.value, rendered) && Contains(r.value, captured.value)
  {
    match ValidateArgs(args)
    case Failure(e) => Failure(e)
    case Success(_) =>
      match ValidateLanguage(language)
      case Failure(e) => Failure(e)
      case Success(lang) =>
        match captured
        case Failure(reason) => Failure(CommandFailed(reason))
        case Success(output) =>
          var t := TemplateFor(lang).value;
          assert OccursAt(Fill(t, rendered, output), rendered, |t.head|);
          assert OccursAt(Fill(t, rendered, output), output, |t.head| + |rendered| + |t.mid|);
          Success(ExecutePrompt(lang, rendered, output))
  }

  /** The flag's default always passes the pre-run check. */
  lemma DefaultLanguageAccepted()
    ensures ValidateLanguage(FlagDefault).Success?
  {
  }
}
