# aicommand prompt composition, in Dafny

`aicommand` is a small Go CLI. It runs a shell command, or reads piped
standard input, and sends the captured text to a chat-completion API inside a
templated prompt. This project models the deterministic part of that
pipeline as pure functions and proves properties about it:

- **Root command** (`cmd/root.go`), module `Root`:
  - `GenerateFullOutput` chooses one of three templates in a fixed priority
    order: a custom prompt first, then English, then Japanese.
  - `DefaultLanguage` derives the default `--language` value from `LANG`.
  - `PlanAcquisition` decides between standard input and `SHELL -c <joined
    arguments>`. It also builds the source label that names the input in the
    prompt.
  - `RootPrompt` composes the planned input and the prompt, up to the chat request.
- **`execute` subcommand** (`cmd/execute.go`), module `Execute`:
  - the "at least one argument" rule;
  - the `en`/`ja` pre-run check;
  - the program/argv split;
  - the inline prompt, pulled out into the pure function `ExecutePrompt`.
- **Shared pieces**:
  - `Templates` treats a `fmt.Sprintf` format with two `%v` verbs as
    head/middle/tail constants around two slots. `Unfill` reads a filled
    prompt back.
  - `Text` models Go's `strings.Join`, which builds the command line, and
    substring occurrence. It also defines `Split` at a single character. The
    program never splits strings. `Split` is the reference inverse used to
    state the round trips about joining.
  - `Language` defines the two supported codes.
  - `Wrappers` provides `Option` and `Result`.

Strings are `seq<char>`. Go strings are bytes. Every template branch is a
plain concatenation, so the containment and round-trip statements hold for
either unit. The length constants in `Root.FullOutputLength` and
`Execute.ExecutePromptKeepsParts` count characters; in UTF-8 bytes the
Japanese constants are 193 (root) and 96 (execute). `LANG`'s prefix `"ja"` is
ASCII, so for a UTF-8 value the byte test and the character test agree.

Standard input, the child process and the chat API are I/O. Their outcome
enters the model as a `Result<string, string>` parameter, where the error
string stands for the Go error. The rendering of the `execute` command
(`exec.Cmd.String()`) is an opaque `rendered` string.

Three behaviours of the code that a reader might not expect, all modelled as written:

- For a language other than `en`/`ja` with no custom prompt, the root command
  composes the empty prompt. There is no English fallback.
- A custom prompt replaces the analysis template. It does not fill a
  "context" slot of it.
- Only the child's standard output is captured.

## Model

| member | source | states |
|---|---|---|
| `Root.GenerateFullOutput` | cmd/root.go:119-142 | A non-empty custom prompt gives `customPrompt + "\nExecuted command or input source: " + cmd + "\nOutput:\n" + output` whatever the language. Otherwise `en` and `ja` give their exact templates, with the command before the output. The prompt is empty exactly when there is no custom prompt and the language is neither `en` nor `ja`. |
| `Root.FullOutputLength` | cmd/root.go:122-139 | The prompt's length is the sum of its parts' lengths plus a constant per branch: 44 plus the custom prompt, 125 for English, 69 characters for Japanese. |
| `Root.FullOutputKeepsParts` | cmd/root.go:122-139 | Whenever a template fires, the command label and the output can be read back out of the prompt exactly. They are embedded verbatim, with no truncation or escaping. |
| `Root.CustomPromptIgnoresLanguage` | cmd/root.go:121-127 | With a custom prompt, any two languages give the same prompt. |
| `Root.DefaultLanguage` | cmd/root.go:155-160 | The default is `ja` iff `LANG` has at least two characters and they are `j`, `a`. Otherwise it is `en`. It is always a supported language. |
| `Root.EffectiveLanguage` | cmd/root.go:163 | A given `--language` flag is taken as is, unvalidated. Without the flag, the `LANG` default applies and is supported. |
| `Root.DefaultLanguageHasTemplate` | cmd/root.go:155-160 | With the `LANG`-derived language and no custom prompt, a template always fires and the prompt is non-empty. |
| `Root.PlanAcquisition` | cmd/root.go:49-66 | No arguments means standard input, the label `"Input from pipeline"`, and no process. Otherwise the label is the arguments joined with `" "`, and it is byte-for-byte the script passed after `-c`. The shell is `SHELL`, or `/bin/sh` when that is empty. The label's length is the arguments' lengths plus one per gap between neighbours. |
| `Root.SourceNamesEachArgument` | cmd/root.go:65-66 | Every argument occurs in the label at the offset of the arguments and spaces before it. |
| `Root.SourceSpaceBetweenArguments` | cmd/root.go:65-66 | Between every two neighbouring arguments the label holds exactly one space character. Together with the label's length and each argument's position, this fixes the label character by character, whatever the arguments contain. |
| `Root.SourceRecoversArguments` | cmd/root.go:65-66 | Arguments without spaces are recovered exactly by splitting the label, or the shell script, at spaces. |
| `Root.RootPrompt` | cmd/root.go:49-77 | A failed read or command stops the run. It is a stdin error when the plan reads standard input and a command error when it spawns a shell, carrying the underlying error. On success the prompt is `GenerateFullOutput` of the plan's source label and the captured text. |
| `Root.PipedInputPrompt` | cmd/root.go:49-57 | With no arguments nothing is spawned. The English prompt without a custom prompt is exactly the template around `"Input from pipeline"` and the piped text. |
| `Root.PromptNamesInputAndArguments` | cmd/root.go:65-77 | Whenever a template fires, the composed prompt contains the captured text and every argument of the command. |
| `Execute.ValidateArgs` | cmd/execute.go:28-37 | Fewer than one argument fails with the count received. Otherwise the program followed by its argv is exactly the argument list, with no joining. |
| `Execute.ValidateLanguage` | cmd/execute.go:29-33 | A language is accepted iff it is `en` or `ja`. Any other value fails with `InvalidLanguage`. |
| `Execute.ExecutePrompt` | cmd/execute.go:47-52 | `en` gives exactly `"Command executed: " + c + "\nResult:\n" + out + "\nCan you explain this result?"`. `ja` gives the Japanese template, with `c` before `out`. The prompt is empty iff the language is neither. |
| `Execute.ExecutePromptKeepsParts` | cmd/execute.go:49-51 | The rendering and the output are read back unchanged from the prompt. Its length is the parts plus 56 (English) or 36 characters (Japanese). |
| `Execute.ExecuteRun` | cmd/execute.go:28-52 | The arity rule is checked first, then the language, then the command's outcome. A prompt is produced iff all three pass. A produced prompt is exactly the en/ja template that `ExecutePrompt` fills with the rendering and the output. It is non-empty and contains both. |
| `Execute.DefaultLanguageAccepted` | cmd/execute.go:99 | The subcommand's default language `en` passes the pre-run check. |
| `Templates.Fill` | cmd/root.go:122-139 | A filled template has the parts' lengths plus the template's constant length. The head, the label, the middle, the body and the tail each occur at their computed offsets. |
| `Templates.UnfillFill` | cmd/execute.go:49-51 | Reading a filled template back with the label's length returns the label and the body. |
| `Templates.FillUnfill` | cmd/root.go:122-139 | Whatever `Unfill` accepts is exactly the template filled with what it returns. |
| `Text.JoinLength` | cmd/root.go:66 | Joining adds one separator between neighbours and nothing else. |
| `Text.JoinContainsEach` | cmd/root.go:66 | Each token occurs in the join at the offset of the tokens and separators before it. |
| `Text.JoinSeparatorAt` | cmd/root.go:66 | Between token `k` and token `k + 1`, the join holds exactly the separator, at the offset of the tokens and separators before it. |
| `Text.SplitJoin` | cmd/root.go:66 | Tokens free of a one-character separator are recovered by splitting their join. |
| `Text.JoinSplit` | cmd/root.go:66 | Joining the pieces of a split with the same character restores the string. |
| `Text.JoinForgetsBoundaries` | cmd/root.go:65-66 | One token `"a b"` and two tokens `"a"`, `"b"` join to the same command line. The label does not determine the argument list. |

## Left out

- Reading standard input (`io.ReadAll`) and running the child process
  (`exec.Command(...).Run()`): OS I/O. Their outcome is a parameter of
  `RootPrompt` and `ExecuteRun`.
- The `OPENAI_API_KEY` check, the chat-completion request and `resp.Choices[0]`:
  network client and foreign library. The model stops at the composed prompt.
- Spinner, colours and the status lines, including the `/bin/sh` fallback notice:
  presentation only.
- Cobra flag and command registration, `os.Getenv` and `os.Exit`: framework and
  environment plumbing.
  - Environment values are parameters.
  - The pre-run `os.Exit(1)` is the `InvalidLanguage` error value.
  - That the arity rule runs before the pre-run hook is the framework's
    ordering, assumed here.
- Exit status: on a failed read or command, the root command prints and
  returns without an error, so the process exits 0. The model reports these
  failures as error values and does not model exit codes.
- `exec.Cmd.String()`: library rendering, not visible. It is an uninterpreted
  string.
- `main.go` and building the package as a whole. `main.go` expects
  `cmd.Execute` to return an error, but it returns none. Both files declare
  `language` and `model`. The model treats each file's logic on its own.
- `--model` and its default `gpt-3.5-turbo`: the value only travels to the chat API.
- Byte-level strings: Go strings are byte sequences, which need not be valid
  UTF-8. The model's strings are sequences of characters. Lengths are counted
  in characters, not the bytes Go's `len` counts. Containment and round trips
  hold either way, because every template branch is a plain concatenation.
