# Deploy panel extension — a Dafny model

The extension opens a "deploy panel" in the editor. It runs `git` and `npx vercel` in the
project folder and reports to the panel what happened. This project models the logic in
`extension/src/extension.ts` that does that work, leaving out the process execution and the
editor API:

- **`makeSafeName`** turns a project name into a Vercel project name (`safe_name.dfy`).
  The steps, in order:
  - lowercase the name;
  - map every character outside `[a-z0-9-_]` to `-`;
  - collapse runs of dashes;
  - drop one leading and one trailing dash;
  - keep the first 100 characters.

  An empty result becomes `deploy-project`.
- **Path quoting** builds the `git diff -- "<file>"` and `git add "<a>" "<b>" …` command lines
  (`shell_quote.dfy`). A path is quoted as `"` + the path with every `"` turned into `\"` + `"`.
  The model includes a left-to-right reader, which gives back each quoted word when no path
  ends in a backslash.
- **Status parsing** reads the output of `git status --porcelain` into the file list shown in
  the panel (`status.dfy`). It is built on the JavaScript `trim` and `split('\n')`, which are
  modelled in `js_string.dfy`.
- **The panel** is modelled as a class whose state is the trace of events so far (`deploy.dfy`).
  An event is a command issued or a message posted. The trace covers:
  - opening the panel;
  - the `requestStatus`, `preview` and `deploy` messages;
  - the branch, token and project-name resolution the deploy does.

  Every command result comes from an `Oracle`, a record holding one `RunResult` per kind of
  command. Each handler method is proved to produce exactly the trace given by a function on
  the old trace (`StatusRefresh`, `PreviewRun`, `DeployRun`). The lemmas state the promised
  properties about those functions:
  - the order of commands;
  - the early stops on a failed build and a missing token;
  - the validity of the deploy name;
  - that git results are ignored.

The status parser is modelled as the code is written: the line is trimmed before its first
three characters are cut. One might expect ` M foo.txt` to give `foo.txt`, but the code gives
`oo.txt`. `Status.StatusOfUnstagedLine` states what the code
does, and the model follows the code.

## Model

| member | source | states |
|---|---|---|
| JsString.TrimStartFacts | extension/src/extension.ts:63 | the leading-whitespace strip leaves a suffix that does not start with whitespace, and removes only whitespace |
| JsString.TrimEndFacts | extension/src/extension.ts:63 | the trailing-whitespace strip leaves a prefix that does not end in whitespace, and removes only whitespace |
| JsString.TrimFacts | extension/src/extension.ts:63 | `trim` leaves no whitespace at either end and never lengthens the text; the result is empty exactly when the text is all whitespace |
| JsString.TrimIsSlice | extension/src/extension.ts:63 | `trim` returns a slice of its input, and everything before and after that slice is whitespace |
| JsString.TrimOfTrimmed | extension/src/extension.ts:65 | trimming text with no whitespace at its ends gives it back, so the second trim of a line changes nothing |
| JsString.Split | extension/src/extension.ts:62 | `split('\n')` always yields at least one piece |
| JsString.SplitPiecesHaveNoNewline | extension/src/extension.ts:62 | no piece of the split holds a newline |
| JsString.JoinSplit | extension/src/extension.ts:62 | joining the pieces with newlines gives back the text, so splitting loses nothing |
| JsString.SplitAtNewline | extension/src/extension.ts:62 | the pieces of `a + "\n" + b` are the pieces of `a` followed by the pieces of `b` |
| JsString.SplitOneLine | extension/src/extension.ts:62 | text without a newline is a single piece |
| SafeName.DashifyFacts | extension/src/extension.ts:23 | every character outside `[a-z0-9-_]` becomes `-`, and every other character stays in place |
| SafeName.CollapseDashesFacts | extension/src/extension.ts:24 | collapsing dash runs removes only dashes, keeps the first and last characters and the safe alphabet, and leaves no `--` |
| SafeName.CollapseFixpoint | extension/src/extension.ts:24 | text without `--` is unchanged by the collapse |
| SafeName.StripDashEndsFacts | extension/src/extension.ts:25 | the result is the input without its first character when that is a dash and without its last character when that is a dash, and nothing else is removed; so only dashes go, the safe alphabet and the absence of `--` are kept, and on text without `--` no dash is left at either end |
| SafeName.StripDashEndsKeepsNonDash | extension/src/extension.ts:25 | the strip keeps every character that is not a dash, in order |
| SafeName.Clip | extension/src/extension.ts:26 | the cut keeps a prefix: exactly the first 100 characters of a longer text, and a text of at most 100 characters whole |
| SafeName.ClipOfCanonical | extension/src/extension.ts:26 | cutting a canonical text keeps the safe alphabet and adds no `--` and no leading dash |
| SafeName.UnclippedFacts | extension/src/extension.ts:21-25 | before the cut the text is canonical (safe alphabet, no `--`, no dash at either end) and keeps every non-dash character of the dashified lowercase name, in order |
| SafeName.MakeSafeName | extension/src/extension.ts:20-27 | the sanitised name is at most 100 characters long |
| SafeName.MakeSafeNameIsValid | extension/src/extension.ts:20-27 | the sanitised name holds only `[a-z0-9-_]`, never holds `--` and never starts with `-` |
| SafeName.MakeSafeNameOfCanonical | extension/src/extension.ts:21-26 | a canonical name comes out as its first 100 characters |
| SafeName.MakeSafeNameFixpoint | extension/src/extension.ts:20-27 | a name already lowercase `[a-z0-9-_]`, without `--`, without a dash at either end and at most 100 characters long is returned unchanged |
| SafeName.TrailingDashOnlyFromCut | extension/src/extension.ts:25-26 | a sanitised name ends in `-` only when the 100-character cut fell just after a dash |
| SafeName.TrailingDashIsPossible | extension/src/extension.ts:25-26 | some name does sanitise to a result ending in `-`, so "never ends with a dash" is false |
| SafeName.CollapseAppend | extension/src/extension.ts:24 | the collapse never merges across a character that is not a dash: text split after a non-dash character collapses piece by piece |
| SafeName.CollapseDashRun | extension/src/extension.ts:24 | a run of dashes in front of text that does not start with a dash becomes exactly one dash |
| SafeName.CollapseAroundRun | extension/src/extension.ts:24 | a run of dashes between two non-dash characters survives the collapse as exactly one dash, in its place |
| SafeName.StripAroundDash | extension/src/extension.ts:25 | the end strip touches only the two ends: a dash between two non-dash characters stays |
| SafeName.UnclippedAroundSeparators | extension/src/extension.ts:21-25 | before the cut, a name whose run of separator characters lies between two kept characters gives the two sides' names joined by exactly one dash |
| SafeName.MakeSafeNameAroundSeparators | extension/src/extension.ts:20-27 | when nothing is cut, the parts on either side of a run of separators are sanitised separately and joined by one dash (`a b` gives `a-b`) |
| SafeName.UnclippedOfWord | extension/src/extension.ts:21-25 | a name of letters, digits and underscores only is just lowercased before the cut |
| SafeName.MakeSafeNameOfTwoWords | extension/src/extension.ts:20-27 | two words of letters, digits and underscores around any run of separators give the lowercased words joined by one dash, when no cut is needed |
| SafeName.MakeSafeNameKeepsContent | extension/src/extension.ts:22-26 | when nothing is cut, every letter, digit and underscore of the dashified lowercase name survives, in order |
| SafeName.DeployName | extension/src/extension.ts:128 | the fallback to `deploy-project` is never empty, is at most 100 characters, and is the sanitised name whenever that is not empty |
| SafeName.DeployNameIsValid | extension/src/extension.ts:128 | the deploy name holds only `[a-z0-9-_]`, without `--` and without a leading dash |
| ShellQuote.EscapeFacts | extension/src/extension.ts:87 | the escaped path does not start with `"`, every `"` in it follows a backslash, and it ends in a backslash only when the path does |
| ShellQuote.EscapeWithoutQuotes | extension/src/extension.ts:87 | a path without `"` is left unchanged by the escape |
| ShellQuote.UnescapeEscape | extension/src/extension.ts:87 | unescaping undoes escaping, for every path |
| ShellQuote.Quote | extension/src/extension.ts:87 | the quoted path starts and ends with `"`, and its inner part unescapes to the path |
| ShellQuote.QuoteEscapesInnerQuotes | extension/src/extension.ts:87 | inside the quotes every `"` is preceded by a backslash |
| ShellQuote.ReadWordOfEscape | extension/src/extension.ts:96 | an escaped path followed by the closing quote reads back as the path, unless the path ends in a backslash |
| ShellQuote.ParseJoinQuoted | extension/src/extension.ts:96 | the space-joined quoted list reads back as the files, one word per file, in order, when no file ends in a backslash |
| ShellQuote.TrailingBackslashBreaksReading | extension/src/extension.ts:96 | the backslash condition is needed: the file `a\` does not read back |
| Status.TrimLinesFacts | extension/src/extension.ts:63 | each trimmed line is the trim of the line at the same place, with no whitespace at its ends |
| Status.DropEmptyKeeps | extension/src/extension.ts:64 | `filter(Boolean)` keeps only non-empty lines from its input, no more of them than there were, and every non-empty line |
| Status.EntriesAt | extension/src/extension.ts:65 | each entry comes from the kept line at the same place |
| Status.EntryNonEmpty | extension/src/extension.ts:65 | a non-empty trimmed line never gives an empty entry |
| Status.ShortLineKeptWhole | extension/src/extension.ts:65 | a trimmed line of at most 3 characters is kept whole |
| Status.StatusEntriesNonEmpty | extension/src/extension.ts:61-65 | no file in the parsed list is empty or has whitespace at its ends |
| Status.StatusOfJoin | extension/src/extension.ts:61-65 | line order is kept: the files for `a + "\n" + b` are those for `a` followed by those for `b` |
| Status.StatusOfLine | extension/src/extension.ts:61-65 | a blank line gives no file; any other line gives one file, the entry of the trimmed line |
| Status.StatusOfMarkedLine | extension/src/extension.ts:60-65 | a porcelain line `XY path` whose first status column is not blank gives exactly `path` |
| Status.StatusOfUnstagedLine | extension/src/extension.ts:60-65 | a porcelain line ` Y path` (first column blank) gives the path without its first character, because the trim comes before the cut |
| Deploy.StageCommand | extension/src/extension.ts:95-100 | `git add` gets the selected files when there is at least one, and `.` exactly when the list is missing or empty |
| Deploy.StageLineReadsBack | extension/src/extension.ts:95-97 | the staging line is `git add ` followed by one quoted word per selected file, in order, which read back as the files when no file ends in a backslash |
| Deploy.StageTwoPlainFiles | extension/src/extension.ts:96-97 | two file names without `"` are staged as `git add "a" "b"` |
| Deploy.DiffLineQuotesFile | extension/src/extension.ts:87 | the diff line is `git diff -- ` followed by the quoted file, whose inner part unescapes to the file |
| Deploy.Shown | extension/src/extension.ts:88 | the shown text is the output when there is any, and the error output otherwise |
| Deploy.ResolveBranchFacts | extension/src/extension.ts:91-92 | the branch is never empty and has no whitespace at its ends; it is `main` when the query printed only whitespace, and the trimmed output otherwise |
| Deploy.BranchFromOutput | extension/src/extension.ts:92 | when the query printed anything besides whitespace, the branch is that output with only its surrounding whitespace removed |
| Deploy.ResolveToken | extension/src/extension.ts:116 | the token is the message token when that is non-empty, else the stored token when that is non-empty, and is empty exactly when neither is |
| Deploy.ProjectNameFacts | extension/src/extension.ts:122-128 | the deploy name is never empty and is valid; it is the sanitised manifest name when that name is present and not empty, otherwise the sanitised folder name, and `deploy-project` when sanitising leaves nothing |
| Deploy.PreviewAnswers | extension/src/extension.ts:82-88 | an empty file name runs nothing and answers `No file`; any other name runs exactly the diff of that file and answers with its output, or its error output when the output is empty |
| Deploy.GithubCommands | extension/src/extension.ts:94-105 | the GitHub leg issues add, commit and push to the branch, in that order, and nothing else |
| Deploy.VercelCommands | extension/src/extension.ts:107-134 | the Vercel leg issues the build, then the deploy only when the build succeeded and a token was found; it finishes exactly then |
| Deploy.ClosingCommands | extension/src/extension.ts:136-137 | the end of an unstopped deploy issues only the status query |
| Deploy.DeploySequence | extension/src/extension.ts:89-137 | the deploy issues exactly: the branch query; add, commit and push for GitHub; the build and, on success with a token, the deploy for Vercel; and the status query unless the Vercel leg stopped |
| Deploy.BuildFailureStopsDeploy | extension/src/extension.ts:108-113 | a failed build stops the deploy: the build is the last command, no deploy and no status query run, and the build's error output (or `Build failed`) is the last thing posted |
| Deploy.MissingTokenStopsDeploy | extension/src/extension.ts:116-120 | with no message token and no stored token the deploy stops after the build: no deploy and no status query, and `Build finished.` is the last thing posted |
| Deploy.VercelDeployIssued | extension/src/extension.ts:107-133 | a deploy command is issued if and only if Vercel is a target, the build succeeded and a token was found, and it carries that token and the project name |
| Deploy.DeployedNameIsValid | extension/src/extension.ts:128-129 | every deploy command carries a non-empty token and a non-empty name of at most 100 characters of `[a-z0-9-_]` without `--` |
| Deploy.GitResultsIgnored | extension/src/extension.ts:101-104 | the results of add, commit and push never change the commands issued or the outcome, so a failed commit or push does not prevent the Vercel leg |
| Deploy.GithubOnlyDeploy | extension/src/extension.ts:94-105 | a GitHub-only deploy with selected files issues the branch query, `git add` of exactly those files, the commit, the push to the resolved branch and the status query, and always finishes |
| Deploy.Panel.Open | extension/src/extension.ts:69 | opening the panel runs the status query and posts the parsed file list |
| Deploy.Panel.Exec | extension/src/extension.ts:9-18 | running a command records it in the trace and returns the oracle's result for it |
| Deploy.Panel.PostMessage | extension/src/extension.ts:57 | posting a message appends it to the trace |
| Deploy.Panel.RefreshStatus | extension/src/extension.ts:59-67 | the status refresh appends the status query and the parsed file list to the trace |
| Deploy.Panel.Preview | extension/src/extension.ts:82-88 | the preview handler extends the trace exactly as `PreviewRun` says |
| Deploy.Panel.Deploy | extension/src/extension.ts:89-137 | the deploy handler extends the trace exactly as `DeployRun` says and returns its outcome |

## Left out

- `runCommand` (extension/src/extension.ts:9-18) is not modelled as a process. Command results are an oracle input, and the output chunks streamed to the log while a command runs are not part of the trace.
- The 10 MB `maxBuffer` limit is not modelled, and neither are process errors that carry no output.
- Deploy.Panel.Exec: the oracle holds one result per kind of command. Each handler run issues every command at most once, so per-run behaviour is exact. Two runs of the same command within one oracle always agree.
- Editor API calls are not modelled: panel creation, HTML content, `showInformationMessage` and `showErrorMessage`. An error message is represented by the handler's `Outcome` (`BuildFailed`, `TokenMissing`).
- `getWebviewContent` is not modelled. It is HTML templating with no logic.
- The secret store is not modelled; the stored token is an input of the deploy.
- The `saveToken` message handler (lines 75-80) is not modelled. When the message carries a truthy token, the handler stores it, then posts `tokenSaved` and the log line `Token saved securely.` to the panel.
- The `clearVercelToken` command (lines 146-149) is not modelled. It only deletes the stored token and shows an editor message.
- `package.json` is not read. Reading the manifest and `JSON.parse` are file I/O, so the manifest name is an optional input. A `name` that is present but is not a string is not modelled.
- The folder's base name is an input; path handling is not modelled.
- The `fs.existsSync` check on the project root (lines 38-41) is not modelled.
- The top-level `catch` (lines 139-142) is not modelled. The message is assumed well-formed: `targets` and `files` are arrays of strings and `token` is a string. With that assumption none of the modelled steps throws, so the catch cannot be reached. A malformed message is not modelled. For example, a non-empty string in `files` makes `msg.files.map` (line 96) throw after the branch query, so the source logs `Exception: …` and issues no commit, push, Vercel leg or status refresh.
- Status.Entry: strings are sequences of Unicode code points, while JavaScript's `length` and `slice` count UTF-16 code units. The entry (line 65) therefore differs from the source when a character outside the Basic Multilingual Plane falls within the first three units of a trimmed line. For example, ` M 😀.txt` gives `.txt` here, but a lone low surrogate followed by `.txt` in the source. The length test differs the same way: `😀😀` has length 4 in JavaScript and is cut there, but is kept whole here. By default git quotes non-ASCII paths in porcelain output, which avoids such lines.
- SafeName.Lower: lowercases ASCII letters only and leaves every other character as it is. Full Unicode case mapping (for example the Kelvin sign lowering to `k`) is not modelled.
- Shell semantics are not modelled. The reader in `ShellQuote` is the left-to-right inverse of the escape, not a shell. No claim is made about backslashes, `$`, backticks or the raw token in the deploy command.
- ShellQuote.ParseJoinQuoted: the read-back holds only for paths that do not end in a backslash. `ShellQuote.TrailingBackslashBreaksReading` shows that it fails otherwise.
- Deploy messages that overlap in time are not modelled; each handler runs to completion.
- `extension/src/webview.ts` is not part of this model. Nothing in the extension imports it.
- `src/App.jsx` is not part of this model. It is a UI counter with no deploy logic.
