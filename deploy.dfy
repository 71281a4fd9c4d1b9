/** The message handlers of the deploy panel: the `deploy` sequence (branch query, the GitHub leg,
    the Vercel leg, the final status refresh), `preview` and the status refresh. Every command goes
    through an oracle `run` that gives its outcome; what the panel does is recorded as a trace of
    events: commands issued and messages posted to the panel. */
module Deploy {
  import opened Wrappers
  import opened JsString
  import opened SafeName
  import opened ShellQuote
  import opened Status

  /** What running a command gives: the exit status and the captured output. */
  datatype RunResult = RunResult(ok: bool, stdout: string, stderr: string)

  /** The commands the panel issues. */
  datatype Command =
    | BranchQuery
    | StageAll
    | StageFiles(paths: seq<string>)
    | Commit
    | Push(branch: string)
    | Build
    | VercelDeploy(token: string, name: string)
    | StatusQuery
    | Diff(file: string)

  /** What the commands of one handler run give. A handler issues each kind of command at most
      once, so one result per kind is all an oracle needs. */
  datatype Oracle = Oracle(
    branchQuery: RunResult, stage: RunResult, commit: RunResult, push: RunResult,
    build: RunResult, deploy: RunResult, status: RunResult, diff: RunResult)
  {
    function Result(c: Command): RunResult {
      match c
      case BranchQuery => branchQuery
      case StageAll => stage
      case StageFiles(_) => stage
      case Commit => commit
      case Push(_) => push
      case Build => build
      case VercelDeploy(_, _) => deploy
      case StatusQuery => status
      case Diff(_) => diff
    }
  }

  /** A message posted to the panel. */
  datatype Post =
    | Log(text: string)
    | StatusFiles(files: seq<string>)
    | PreviewText(file: string, text: string)

  datatype Event = Ran(command: Command) | Posted(post: Post)

  /** How a deploy ends: it runs to the end, or the Vercel leg stops at a failed build or a missing
      token (each with its own error message to the user). */
  datatype Outcome = Finished | BuildFailed | TokenMissing

  /** A `deploy` message: `targets` is absent when it is not an array. */
  datatype Request = Request(targets: Option<seq<string>>, files: Option<seq<string>>, token: Option<string>)

  /** What a deploy reads besides the message: the token in the secret store, the `name` of the
      project manifest (absent when the manifest is missing or unreadable) and the folder's name. */
  datatype Workspace = Workspace(storedToken: Option<string>, manifestName: Option<string>, folder: string)

  /** The events of one handler run and how it ended. */
  datatype Handled = Handled(events: seq<Event>, outcome: Outcome)

  /** The shell text of each command. */
  function CommandLine(c: Command): string {
    match c
    case BranchQuery => "git rev-parse --abbrev-ref HEAD"
    case StageAll => "git add ."
    case StageFiles(paths) => "git add " + JoinQuoted(paths)
    case Commit => "git commit -m \"deploy: automatic\" || true"
    case Push(branch) => "git push origin " + branch
    case Build => "npm run build"
    case VercelDeploy(token, name) =>
      "npx vercel --prod --token=\"" + token + "\" --yes --name=\"" + name + "\""
    case StatusQuery => "git status --porcelain"
    case Diff(file) => "git diff -- " + Quote(file)
  }

  /** The staging command hands `git add` one quoted word per selected file, in order. */
  lemma StageLineReadsBack(paths: seq<string>)
    requires |paths| > 0
    requires forall k | 0 <= k < |paths| :: !EndsWithBackslash(paths[k])
    ensures var line := CommandLine(StageFiles(paths));
      |line| > 8 && line[..8] == "git add " && ParseArgs(line[8..]) == Some(paths)
  {
    var line := CommandLine(StageFiles(paths));
    ParseJoinQuoted(paths);
    assert line[8..] == JoinQuoted(paths);
  }

  /** The diff command ends in the file, quoted so that it unescapes back to the file. */
  lemma DiffLineQuotesFile(file: string)
    ensures var line := CommandLine(Diff(file));
      |line| >= 14 && line[..12] == "git diff -- " && line[12] == '"' && line[|line| - 1] == '"'
      && Unescape(line[13..|line| - 1]) == file
  {
    var line := CommandLine(Diff(file));
    var q := Quote(file);
    assert line[12..] == q;
    assert line[13..|line| - 1] == q[1..|q| - 1];
  }

  /** `r.stdout || r.stderr` */
  function Shown(r: RunResult): (text: string)
    ensures text == "" <==> r.stdout == "" && r.stderr == ""
    ensures r.stdout != "" ==> text == r.stdout
    ensures r.stdout == "" ==> text == r.stderr
  {
    if r.stdout != "" then r.stdout else r.stderr
  }

  /** `Array.isArray(targets) && targets.includes(t)` */
  predicate Wants(targets: Option<seq<string>>, t: string) {
    targets.Some? && t in targets.value
  }

  /** `(stdout || '').trim() || 'main'` */
  function ResolveBranch(stdout: string): string {
    var t := Trim(stdout);
    if t == "" then "main" else t
  }

  /** The branch is never empty and has no whitespace at its ends; it is `main` when the query
      printed only whitespace, and otherwise the query's output trimmed. */
  lemma ResolveBranchFacts(stdout: string)
    ensures var branch := ResolveBranch(stdout);
      && branch != [] && IsTrimmed(branch)
      && (AllSpace(stdout) ==> branch == "main")
      && (!AllSpace(stdout) ==> branch == Trim(stdout))
  {
    TrimFacts(stdout);
  }

  /** When the query prints anything besides whitespace, the branch is that output with only the
      whitespace at its ends removed. */
  lemma BranchFromOutput(stdout: string)
    requires !AllSpace(stdout)
    ensures var branch := ResolveBranch(stdout);
      exists i :: 0 <= i <= |stdout| - |branch| && branch == stdout[i..i + |branch|]
                  && AllSpace(stdout[..i]) && AllSpace(stdout[i + |branch|..])
  {
    TrimFacts(stdout);
    TrimIsSlice(stdout);
  }

  /** `msg.token || stored || ''`: the first non-empty one of the message token and the stored
      token; empty exactly when there is neither. */
  function ResolveToken(msgToken: Option<string>, stored: Option<string>): (token: string)
    ensures token == "" <==> !Truthy(msgToken) && !Truthy(stored)
    ensures Truthy(msgToken) ==> token == msgToken.value
    ensures !Truthy(msgToken) && Truthy(stored) ==> token == stored.value
  {
    if Truthy(msgToken) then msgToken.value
    else if Truthy(stored) then stored.value
    else ""
  }

  /** The deploy name: the manifest's `name` when it is there and not empty, otherwise the folder
      name, sanitised, with `deploy-project` for an empty result. */
  function ProjectName(manifestName: Option<string>, folder: string): string {
    var base := if Truthy(manifestName) then manifestName.value else folder;
    DeployName(base)
  }

  /** The name is never empty, at most 100 characters of `[a-z0-9-_]`, without `--` or a leading
      dash; it is the manifest's name sanitised when that name is not empty, and the folder's
      otherwise. */
  lemma ProjectNameFacts(manifestName: Option<string>, folder: string)
    ensures var name := ProjectName(manifestName, folder);
      && 0 < |name| <= MaxLength
      && AllSafe(name) && NoDoubleDash(name) && !StartsWithDash(name)
      && (Truthy(manifestName) && MakeSafeName(manifestName.value) != "" ==> name == MakeSafeName(manifestName.value))
      && (!Truthy(manifestName) && MakeSafeName(folder) != "" ==> name == MakeSafeName(folder))
      && (MakeSafeName(if Truthy(manifestName) then manifestName.value else folder) == "" ==> name == Fallback)
  {
    DeployNameIsValid(if Truthy(manifestName) then manifestName.value else folder);
  }

  /** `git add` with the selected files quoted, or `git add .` when none are selected. */
  function StageCommand(files: Option<seq<string>>): (c: Command)
    ensures c == StageAll || (c.StageFiles? && files == Some(c.paths) && c.paths != [])
    ensures c == StageAll <==> files.None? || files.value == []
  {
    if files.Some? && |files.value| > 0 then StageFiles(files.value) else StageAll
  }

  /** The command of one event, if it is one. */
  function CommandOf(e: Event): seq<Command> {
    if e.Ran? then [e.command] else []
  }

  /** The commands among the events, in order. */
  function Commands(events: seq<Event>): seq<Command> {
    if events == [] then [] else CommandOf(events[0]) + Commands(events[1..])
  }

  lemma {:induction false} CommandsAppend(a: seq<Event>, b: seq<Event>)
    ensures Commands(a + b) == Commands(a) + Commands(b)
  {
    if a == [] {
      assert a + b == b;
    } else {
      assert (a + b)[1..] == a[1..] + b;
      CommandsAppend(a[1..], b);
    }
  }

  /** Appending a posted message adds no command; appending a command adds it at the end. */
  lemma CommandsSnoc(trace: seq<Event>, e: Event)
    ensures Commands(trace + [e]) == Commands(trace) + CommandOf(e)
  {
    CommandsAppend(trace, [e]);
    assert [e][1..] == [];
  }

  /** `sendStatus`: the status query, then its parsed file list posted to the panel. */
  function StatusRefresh(trace: seq<Event>, run: Oracle): seq<Event> {
    trace + [Ran(StatusQuery)] + [Posted(StatusFiles(ParseStatus(run.Result(StatusQuery).stdout)))]
  }

  /** The `preview` handler: an empty file name is answered with `No file` without running
      anything; otherwise the diff's output, or its error output when there is none. */
  function PreviewRun(trace: seq<Event>, file: string, run: Oracle): seq<Event> {
    if file == "" then
      trace + [Posted(PreviewText(file, "No file"))]
    else
      trace + [Ran(Diff(file))] + [Posted(PreviewText(file, Shown(run.Result(Diff(file)))))]
  }

  /** An empty file name runs nothing; any other runs exactly the diff of that file and answers
      with its output, or its error output when the output is empty. */
  lemma PreviewAnswers(trace: seq<Event>, file: string, run: Oracle)
    ensures var t := PreviewRun(trace, file, run);
      && |t| > |trace| && t[..|trace|] == trace
      && (file == "" ==> Commands(t) == Commands(trace) && t[|t| - 1] == Posted(PreviewText(file, "No file")))
      && (file != "" ==> Commands(t) == Commands(trace) + [Diff(file)]
                         && t[|t| - 1] == Posted(PreviewText(file, Shown(run.Result(Diff(file))))))
  {
    var p := if file == "" then PreviewText(file, "No file") else PreviewText(file, Shown(run.Result(Diff(file))));
    if file == "" {
      CommandsSnoc(trace, Posted(p));
    } else {
      CommandsSnoc(trace, Ran(Diff(file)));
      CommandsSnoc(trace + [Ran(Diff(file))], Posted(p));
    }
  }

  /** The GitHub leg: stage, commit (its failure ignored by `|| true`), push, then two log lines;
      no result is checked. */
  function GithubLeg(trace: seq<Event>, files: Option<seq<string>>, branch: string, run: Oracle): seq<Event> {
    trace + [Ran(StageCommand(files))] + [Ran(Commit)] + [Ran(Push(branch))]
    + [Posted(Log(Shown(run.Result(Push(branch)))))]
    + [Posted(Log("Git push to " + branch + " finished."))]
  }

  /** The Vercel leg: build; stop if it failed; resolve the token; stop if there is none; deploy
      under the project name. */
  function VercelLeg(trace: seq<Event>, msgToken: Option<string>, ws: Workspace, run: Oracle): Handled {
    var build := run.Result(Build);
    var built := trace + [Ran(Build)];
    if !build.ok then
      Handled(built + [Posted(Log(if build.stderr != "" then build.stderr else "Build failed"))], BuildFailed)
    else
      var token := ResolveToken(msgToken, ws.storedToken);
      if token == "" then
        Handled(built + [Posted(Log("Build finished."))], TokenMissing)
      else
        var d := DeployCommand(msgToken, ws);
        Handled(built + [Posted(Log("Build finished."))] + [Ran(d)]
                + [Posted(Log(Shown(run.Result(d))))] + [Posted(Log("Vercel deploy finished."))], Finished)
  }

  /** The end of a deploy that was not stopped: the closing log line and the status refresh. */
  function Closing(trace: seq<Event>, run: Oracle): seq<Event> {
    StatusRefresh(trace + [Posted(Log("Deploy finished."))], run)
  }

  /** The `deploy` handler, extending the trace so far. A stop in the Vercel leg also skips the
      closing log line and the status refresh. */
  function DeployRun(trace: seq<Event>, req: Request, ws: Workspace, run: Oracle): Handled {
    var branch := ResolveBranch(run.Result(BranchQuery).stdout);
    var started := trace + [Posted(Log("Starting deploy..."))] + [Ran(BranchQuery)];
    var pushed := if Wants(req.targets, "github") then GithubLeg(started, req.files, branch, run) else started;
    var vercel := if Wants(req.targets, "vercel") then VercelLeg(pushed, req.token, ws, run) else Handled(pushed, Finished);
    if vercel.outcome == Finished then Handled(Closing(vercel.events, run), Finished) else vercel
  }

  /** The deploy that the Vercel leg issues when it gets that far. */
  function DeployCommand(msgToken: Option<string>, ws: Workspace): Command {
    VercelDeploy(ResolveToken(msgToken, ws.storedToken), ProjectName(ws.manifestName, ws.folder))
  }

  lemma StartedCommands(trace: seq<Event>)
    ensures Commands(trace + [Posted(Log("Starting deploy..."))] + [Ran(BranchQuery)]) == Commands(trace) + [BranchQuery]
  {
    CommandsSnoc(trace, Posted(Log("Starting deploy...")));
    CommandsSnoc(trace + [Posted(Log("Starting deploy..."))], Ran(BranchQuery));
  }

  lemma GithubCommands(trace: seq<Event>, files: Option<seq<string>>, branch: string, run: Oracle)
    ensures Commands(GithubLeg(trace, files, branch, run)) == Commands(trace) + [StageCommand(files), Commit, Push(branch)]
  {
    var t1 := trace + [Ran(StageCommand(files))];
    var t2 := t1 + [Ran(Commit)];
    var t3 := t2 + [Ran(Push(branch))];
    var t4 := t3 + [Posted(Log(Shown(run.Result(Push(branch)))))];
    CommandsSnoc(trace, Ran(StageCommand(files)));
    CommandsSnoc(t1, Ran(Commit));
    CommandsSnoc(t2, Ran(Push(branch)));
    CommandsSnoc(t3, Posted(Log(Shown(run.Result(Push(branch))))));
    CommandsSnoc(t4, Posted(Log("Git push to " + branch + " finished.")));
  }

  lemma VercelCommands(trace: seq<Event>, msgToken: Option<string>, ws: Workspace, run: Oracle)
    ensures var v := VercelLeg(trace, msgToken, ws, run);
      var proceeds := run.Result(Build).ok && ResolveToken(msgToken, ws.storedToken) != "";
      && Commands(v.events) == Commands(trace) + [Build] + (if proceeds then [DeployCommand(msgToken, ws)] else [])
      && (v.outcome == Finished <==> proceeds)
  {
    var build := run.Result(Build);
    var built := trace + [Ran(Build)];
    CommandsSnoc(trace, Ran(Build));
    if !build.ok {
      CommandsSnoc(built, Posted(Log(if build.stderr != "" then build.stderr else "Build failed")));
    } else {
      CommandsSnoc(built, Posted(Log("Build finished.")));
      if ResolveToken(msgToken, ws.storedToken) != "" {
        DeployedCommands(built + [Posted(Log("Build finished."))], DeployCommand(msgToken, ws), run);
      }
    }
  }

  lemma DeployedCommands(trace: seq<Event>, d: Command, run: Oracle)
    ensures Commands(trace + [Ran(d)] + [Posted(Log(Shown(run.Result(d))))] + [Posted(Log("Vercel deploy finished."))])
            == Commands(trace) + [d]
  {
    var t1 := trace + [Ran(d)];
    var t2 := t1 + [Posted(Log(Shown(run.Result(d))))];
    CommandsSnoc(trace, Ran(d));
    CommandsSnoc(t1, Posted(Log(Shown(run.Result(d)))));
    CommandsSnoc(t2, Posted(Log("Vercel deploy finished.")));
  }

  lemma ClosingCommands(trace: seq<Event>, run: Oracle)
    ensures Commands(Closing(trace, run)) == Commands(trace) + [StatusQuery]
  {
    var t1 := trace + [Posted(Log("Deploy finished."))];
    var t2 := t1 + [Ran(StatusQuery)];
    CommandsSnoc(trace, Posted(Log("Deploy finished.")));
    CommandsSnoc(t1, Ran(StatusQuery));
    CommandsSnoc(t2, Posted(StatusFiles(ParseStatus(run.Result(StatusQuery).stdout))));
  }

  /** The commands a deploy issues, in order: the branch query; stage, commit and push when GitHub
      is a target; when Vercel is a target, the build and, when the build succeeds and a token is
      found, the deploy; and the status query unless the Vercel leg stopped the run. */
  function DeployCommands(req: Request, ws: Workspace, run: Oracle): seq<Command> {
    var branch := ResolveBranch(run.Result(BranchQuery).stdout);
    var proceeds := run.Result(Build).ok && ResolveToken(req.token, ws.storedToken) != "";
    var vercel := Wants(req.targets, "vercel");
    [BranchQuery]
    + (if Wants(req.targets, "github") then [StageCommand(req.files), Commit, Push(branch)] else [])
    + (if vercel then [Build] + (if proceeds then [DeployCommand(req.token, ws)] else []) else [])
    + (if !vercel || proceeds then [StatusQuery] else [])
  }

  /** How a deploy ends: a Vercel leg stops at a failed build, then at a missing token. */
  function DeployOutcome(req: Request, ws: Workspace, run: Oracle): Outcome {
    if !Wants(req.targets, "vercel") then Finished
    else if !run.Result(Build).ok then BuildFailed
    else if ResolveToken(req.token, ws.storedToken) == "" then TokenMissing
    else Finished
  }

  /** The deploy handler issues exactly `DeployCommands` after the trace so far, and ends as
      `DeployOutcome` says. */
  lemma DeploySequence(trace: seq<Event>, req: Request, ws: Workspace, run: Oracle)
    ensures var h := DeployRun(trace, req, ws, run);
      && Commands(h.events) == Commands(trace) + DeployCommands(req, ws, run)
      && h.outcome == DeployOutcome(req, ws, run)
  {
    var branch := ResolveBranch(run.Result(BranchQuery).stdout);
    var proceeds := run.Result(Build).ok && ResolveToken(req.token, ws.storedToken) != "";
    var github, vercel := Wants(req.targets, "github"), Wants(req.targets, "vercel");
    var started := trace + [Posted(Log("Starting deploy..."))] + [Ran(BranchQuery)];
    var pushed := if github then GithubLeg(started, req.files, branch, run) else started;
    var leg := if vercel then VercelLeg(pushed, req.token, ws, run) else Handled(pushed, Finished);
    var g: seq<Command> := if github then [StageCommand(req.files), Commit, Push(branch)] else [];
    var v: seq<Command> := if vercel then [Build] + (if proceeds then [DeployCommand(req.token, ws)] else []) else [];
    var c: seq<Command> := if !vercel || proceeds then [StatusQuery] else [];
    StartedCommands(trace);
    if github {
      GithubCommands(started, req.files, branch, run);
    }
    assert Commands(pushed) == Commands(started) + g;
    if vercel {
      VercelCommands(pushed, req.token, ws, run);
    }
    assert Commands(leg.events) == Commands(pushed) + v;
    assert leg.outcome == Finished <==> !vercel || proceeds;
    if leg.outcome == Finished {
      ClosingCommands(leg.events, run);
    }
    assert Commands(DeployRun(trace, req, ws, run).events) == Commands(leg.events) + c;
    assert DeployCommands(req, ws, run) == [BranchQuery] + g + v + c;
    Regroup(Commands(trace), [BranchQuery], g, v, c);
  }

  lemma Regroup(a: seq<Command>, b: seq<Command>, c: seq<Command>, d: seq<Command>, e: seq<Command>)
    ensures a + b + c + d + e == a + (b + c + d + e)
  {
  }

  /** A failed build stops the deploy: no deploy command and no status refresh, and the build's
      error output (or `Build failed`) is the last thing posted. */
  lemma BuildFailureStopsDeploy(trace: seq<Event>, req: Request, ws: Workspace, run: Oracle)
    requires Wants(req.targets, "vercel") && !run.Result(Build).ok
    ensures var h := DeployRun(trace, req, ws, run);
      var issued := DeployCommands(req, ws, run);
      && DeployOutcome(req, ws, run) == BuildFailed
      && issued[|issued| - 1] == Build && StatusQuery !in issued
      && (forall c | c in issued :: !c.VercelDeploy?)
      && h.events[|h.events| - 1] == Posted(Log(if run.Result(Build).stderr != "" then run.Result(Build).stderr else "Build failed"))
  {
  }

  /** A missing token stops the deploy after the build: no deploy command and no status refresh,
      and `Build finished.` is the last thing posted. */
  lemma MissingTokenStopsDeploy(trace: seq<Event>, req: Request, ws: Workspace, run: Oracle)
    requires Wants(req.targets, "vercel") && run.Result(Build).ok
    requires !Truthy(req.token) && !Truthy(ws.storedToken)
    ensures var h := DeployRun(trace, req, ws, run);
      var issued := DeployCommands(req, ws, run);
      && DeployOutcome(req, ws, run) == TokenMissing
      && issued[|issued| - 1] == Build && StatusQuery !in issued
      && (forall c | c in issued :: !c.VercelDeploy?)
      && h.events[|h.events| - 1] == Posted(Log("Build finished."))
  {
  }

  /** A deploy command is issued exactly when Vercel is a target, the build succeeds and a token is
      found, and then it carries that token and the project name. */
  lemma VercelDeployIssued(req: Request, ws: Workspace, run: Oracle, token: string, name: string)
    ensures VercelDeploy(token, name) in DeployCommands(req, ws, run) <==>
      && Wants(req.targets, "vercel") && run.Result(Build).ok
      && token == ResolveToken(req.token, ws.storedToken) && token != ""
      && name == ProjectName(ws.manifestName, ws.folder)
  {
  }

  /** Every deploy command carries a non-empty token and a valid, non-empty name. */
  lemma DeployedNameIsValid(req: Request, ws: Workspace, run: Oracle)
    ensures forall c | c in DeployCommands(req, ws, run) && c.VercelDeploy? ::
      c.token != "" && 0 < |c.name| <= MaxLength && AllSafe(c.name) && NoDoubleDash(c.name)
  {
    ProjectNameFacts(ws.manifestName, ws.folder);
  }

  /** The results of add, commit and push are never looked at: two oracles that differ only on
      those commands give the same commands and the same outcome. */
  lemma GitResultsIgnored(trace: seq<Event>, req: Request, ws: Workspace, run1: Oracle, run2: Oracle)
    requires run1.branchQuery == run2.branchQuery && run1.build == run2.build
    requires run1.deploy == run2.deploy && run1.status == run2.status && run1.diff == run2.diff
    ensures Commands(DeployRun(trace, req, ws, run1).events) == Commands(DeployRun(trace, req, ws, run2).events)
    ensures DeployRun(trace, req, ws, run1).outcome == DeployRun(trace, req, ws, run2).outcome
  {
    DeploySequence(trace, req, ws, run1);
    DeploySequence(trace, req, ws, run2);
    SameQueryAndBuild(req, ws, run1, run2);
  }

  lemma SameQueryAndBuild(req: Request, ws: Workspace, run1: Oracle, run2: Oracle)
    requires run1.branchQuery == run2.branchQuery && run1.build == run2.build
    ensures DeployCommands(req, ws, run1) == DeployCommands(req, ws, run2)
    ensures DeployOutcome(req, ws, run1) == DeployOutcome(req, ws, run2)
  {
    assert run1.Result(BranchQuery) == run2.Result(BranchQuery);
    assert run1.Result(Build) == run2.Result(Build);
  }

  /** A deploy to GitHub only with selected files: the branch query, `git add` of exactly those
      files, the commit, the push to the resolved branch, and the status query at the end; it
      always finishes. */
  lemma GithubOnlyDeploy(req: Request, ws: Workspace, run: Oracle)
    requires Wants(req.targets, "github") && !Wants(req.targets, "vercel")
    requires req.files.Some? && req.files.value != []
    ensures DeployCommands(req, ws, run) == [ BranchQuery, StageFiles(req.files.value), Commit,
                                              Push(ResolveBranch(run.Result(BranchQuery).stdout)), StatusQuery ]
    ensures DeployOutcome(req, ws, run) == Finished
  {
  }

  /** The deploy handler seen through its checkpoints: the trace after the start, after the
      GitHub leg and after the Vercel leg. */
  lemma DeployRunStopped(trace: seq<Event>, req: Request, ws: Workspace, run: Oracle,
                         started: seq<Event>, pushed: seq<Event>)
    requires started == trace + [Posted(Log("Starting deploy..."))] + [Ran(BranchQuery)]
    requires pushed == if Wants(req.targets, "github")
                       then GithubLeg(started, req.files, ResolveBranch(run.Result(BranchQuery).stdout), run)
                       else started
    requires Wants(req.targets, "vercel") && VercelLeg(pushed, req.token, ws, run).outcome != Finished
    ensures DeployRun(trace, req, ws, run) == VercelLeg(pushed, req.token, ws, run)
  {
  }

  lemma DeployRunFinished(trace: seq<Event>, req: Request, ws: Workspace, run: Oracle,
                          started: seq<Event>, pushed: seq<Event>, legEnd: seq<Event>)
    requires started == trace + [Posted(Log("Starting deploy..."))] + [Ran(BranchQuery)]
    requires pushed == if Wants(req.targets, "github")
                       then GithubLeg(started, req.files, ResolveBranch(run.Result(BranchQuery).stdout), run)
                       else started
    requires if Wants(req.targets, "vercel")
             then VercelLeg(pushed, req.token, ws, run) == Handled(legEnd, Finished)
             else legEnd == pushed
    ensures DeployRun(trace, req, ws, run) == Handled(Closing(legEnd, run), Finished)
  {
  }

  /** Two file names without double quotes are staged as two plainly quoted words. */
  lemma StageTwoPlainFiles(a: string, b: string)
    requires '"' !in a && '"' !in b
    ensures CommandLine(StageFiles([a, b])) == "git add \"" + a + "\" \"" + b + "\""
  {
    QuotePlain(a);
    QuotePlain(b);
    assert [a, b][1..] == [b];
    assert JoinQuoted([a, b]) == Quote(a) + " " + Quote(b);
    TwoWordLine(a, b, Quote(a), Quote(b));
  }

  lemma TwoWordLine(a: string, b: string, qa: string, qb: string)
    requires qa == "\"" + a + "\"" && qb == "\"" + b + "\""
    ensures "git add " + (qa + " " + qb) == "git add \"" + a + "\" \"" + b + "\""
  {
  }

  lemma QuotePlain(p: string)
    requires '"' !in p
    ensures Quote(p) == "\"" + p + "\""
  {
    EscapeWithoutQuotes(p);
  }

  /** The deploy panel. What it has done so far is its trace of events. */
  class Panel {
    var events: seq<Event>

    /** Opening the panel refreshes the status once. */
    constructor Open(run: Oracle)
      ensures events == StatusRefresh([], run)
    {
      events := [];
      new;
      RefreshStatus(run);
    }

    /** `runCommand`: the command is issued and the oracle gives its result. */
    method Exec(c: Command, run: Oracle) returns (result: RunResult)
      modifies this
      ensures events == old(events) + [Ran(c)] && result == run.Result(c)
    {
      result := run.Result(c);
      events := events + [Ran(c)];
    }

    /** `postMessage` / `sendLog` */
    method PostMessage(p: Post)
      modifies this
      ensures events == old(events) + [Posted(p)]
    {
      events := events + [Posted(p)];
    }

    /** `sendStatus` (also the `requestStatus` message) */
    method RefreshStatus(run: Oracle)
      modifies this
      ensures events == StatusRefresh(old(events), run)
    {
      var res := Exec(StatusQuery, run);
      var files := ParseStatus(res.stdout);
      PostMessage(StatusFiles(files));
    }

    /** The `preview` message. */
    method Preview(file: string, run: Oracle)
      modifies this
      ensures events == PreviewRun(old(events), file, run)
    {
      if file == "" {
        PostMessage(PreviewText(file, "No file"));
        return;
      }
      var r := Exec(Diff(file), run);
      PostMessage(PreviewText(file, Shown(r)));
    }

    /** The `deploy` message. */
    method Deploy(req: Request, ws: Workspace, run: Oracle) returns (outcome: Outcome)
      modifies this
      ensures events == DeployRun(old(events), req, ws, run).events
      ensures outcome == DeployRun(old(events), req, ws, run).outcome
    {
      ghost var trace := events;
      PostMessage(Log("Starting deploy..."));
      var branchRes := Exec(BranchQuery, run);
      var branch := Trim(branchRes.stdout);
      if branch == "" {
        branch := "main";
      }
      assert branch == ResolveBranch(run.Result(BranchQuery).stdout);
      ghost var started := events;
      if Wants(req.targets, "github") {
        if req.files.Some? && |req.files.value| > 0 {
          var _ := Exec(StageFiles(req.files.value), run);
        } else {
          var _ := Exec(StageAll, run);
        }
        var _ := Exec(Commit, run);
        var pushRes := Exec(Push(branch), run);
        PostMessage(Log(Shown(pushRes)));
        PostMessage(Log("Git push to " + branch + " finished."));
        assert events == GithubLeg(started, req.files, branch, run);
      }
      ghost var pushed := events;
      ghost var leg := VercelLeg(pushed, req.token, ws, run);
      if Wants(req.targets, "vercel") {
        var build := Exec(Build, run);
        if !build.ok {
          PostMessage(Log(if build.stderr != "" then build.stderr else "Build failed"));
          assert events == leg.events && leg.outcome == BuildFailed;
          DeployRunStopped(trace, req, ws, run, started, pushed);
          return BuildFailed;
        }
        PostMessage(Log("Build finished."));
        var token := ResolveToken(req.token, ws.storedToken);
        if token == "" {
          assert events == leg.events && leg.outcome == TokenMissing;
          DeployRunStopped(trace, req, ws, run, started, pushed);
          return TokenMissing;
        }
        var baseName := ws.folder;
        if Truthy(ws.manifestName) {
          baseName := ws.manifestName.value;
        }
        var safeName := MakeSafeName(baseName);
        if safeName == "" {
          safeName := Fallback;
        }
        assert safeName == ProjectName(ws.manifestName, ws.folder);
        var res := Exec(VercelDeploy(token, safeName), run);
        PostMessage(Log(Shown(res)));
        PostMessage(Log("Vercel deploy finished."));
        assert events == leg.events && leg.outcome == Finished;
      }
      ghost var legEnd := events;
      PostMessage(Log("Deploy finished."));
      RefreshStatus(run);
      assert events == Closing(legEnd, run);
      DeployRunFinished(trace, req, ws, run, started, pushed, legEnd);
      outcome := Finished;
    }
  }
}
