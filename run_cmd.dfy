/**
 * The container workflow of the claude-docker command (internal/cmd/run.go):
 * the flag checks, `Runner.Execute`, which calls the Docker client, the
 * settings syncer and the mount builder in a fixed order and stops at the
 * first failure, and the entry point `Run`.
 */
module RunCmd {
  import opened Wrappers
  import opened Errors
  import opened Text
  import opened Mounts

  const ImageName := "claude-code-docker"
  const VolumeName := "claude-code-local"

  predicate IsVersionArg(a: string)
  {
    a == "--version" || a == "-v"
  }

  /** `hasVersionFlag`: whether some argument is exactly "--version" or "-v". */
  method HasVersionFlag(args: seq<string>) returns (found: bool)
    ensures found <==> exists i :: 0 <= i < |args| && IsVersionArg(args[i])
  {
    var i := 0;
    while i < |args|
      invariant 0 <= i <= |args|
      invariant forall j :: 0 <= j < i ==> !IsVersionArg(args[j])
    {
      if args[i] == "--version" || args[i] == "-v" {
        return true;
      }
      i := i + 1;
    }
    return false;
  }

  /** `hasWorktreeFlag`: whether some argument is exactly "--worktree". */
  method HasWorktreeFlag(args: seq<string>) returns (found: bool)
    ensures found <==> "--worktree" in args
  {
    var i := 0;
    while i < |args|
      invariant 0 <= i <= |args|
      invariant "--worktree" !in args[..i]
    {
      if args[i] == "--worktree" {
        return true;
      }
      assert args[..i + 1] == args[..i] + [args[i]];
      i := i + 1;
    }
    assert args[..i] == args;
    return false;
  }

  /** The cases of run_test.go for both flags. */
  method FlagExamples()
  {
    var v := HasVersionFlag(["--version"]);
    assert IsVersionArg(["--version"][0]);
    assert v;
    v := HasVersionFlag(["-p", "hello", "--version"]);
    assert IsVersionArg(["-p", "hello", "--version"][2]);
    assert v;
    v := HasVersionFlag(["-p", "hello"]);
    assert !v;
    v := HasVersionFlag([]);
    assert !v;
    v := HasVersionFlag(["--verbose"]);
    assert !v;
    var w := HasWorktreeFlag(["-p", "hello", "--worktree"]);
    assert w;
    w := HasWorktreeFlag(["--worktrees"]);
    assert !w;
    w := HasWorktreeFlag([]);
    assert !w;
  }

  /** What the container run is asked for; `BuildRunConfig` turns it into the Docker run configuration. */
  datatype RunOptions = RunOptions(imageName: string, mounts: seq<Mount>, claudeHome: string,
                                   workDir: string, cliArgs: seq<string>)

  /** One call to a collaborator of `Runner.Execute`, in the order they happen. */
  datatype Call =
    | CheckAvailable
    | PrepareBuildContext
    | Build(imageName: string, contextDir: string)
    | VolumeCreate(volumeName: string)
    | SyncSettings(claudeHome: string, containerHome: string)
    | EnsureOnboardingState(path: string)
    | BuildMounts(opts: MountOptions)
    | RunContainer(config: RunOptions)
    | Cleanup(buildDir: string)

  /**
   * The collaborators of `Runner` (the Docker client, the build context,
   * the settings syncer and the mount builder) with their answers fixed in
   * advance; `calls` records every call in order.
   */
  class Collaborators {
    const checkErr: Option<Error>
    const prepared: Result<string, Error>
    const buildErr: Option<Error>
    const volumeErr: Option<Error>
    const syncErr: Option<Error>
    const onboardingErr: Option<Error>
    const mounts: Result<seq<Mount>, Error>
    const runErr: Option<Error>
    var calls: seq<Call>

    constructor(checkErr: Option<Error>, prepared: Result<string, Error>, buildErr: Option<Error>,
                volumeErr: Option<Error>, syncErr: Option<Error>, onboardingErr: Option<Error>,
                mounts: Result<seq<Mount>, Error>, runErr: Option<Error>)
      ensures this.checkErr == checkErr && this.prepared == prepared && this.buildErr == buildErr
      ensures this.volumeErr == volumeErr && this.syncErr == syncErr && this.onboardingErr == onboardingErr
      ensures this.mounts == mounts && this.runErr == runErr && calls == []
    {
      this.checkErr, this.prepared, this.buildErr, this.volumeErr := checkErr, prepared, buildErr, volumeErr;
      this.syncErr, this.onboardingErr, this.mounts, this.runErr := syncErr, onboardingErr, mounts, runErr;
      calls := [];
    }

    method Record(c: Call)
      modifies this
      ensures calls == old(calls) + [c]
    {
      calls := calls + [c];
    }
  }

  /** The answers of the collaborators, as one value. */
  datatype Answers = Answers(checkErr: Option<Error>, prepared: Result<string, Error>, buildErr: Option<Error>,
                             volumeErr: Option<Error>, syncErr: Option<Error>, onboardingErr: Option<Error>,
                             mounts: Result<seq<Mount>, Error>, runErr: Option<Error>)

  function AnswersOf(c: Collaborators): Answers
    reads c
  {
    Answers(c.checkErr, c.prepared, c.buildErr, c.volumeErr, c.syncErr, c.onboardingErr, c.mounts, c.runErr)
  }

  /** `claudeHome`: the value of `CLAUDE_HOME` when it is set and not empty, else `~/.claude`. */
  function ClaudeHome(homeDir: string, claudeHomeEnv: string): (r: string)
    ensures claudeHomeEnv != "" ==> r == claudeHomeEnv
    ensures claudeHomeEnv == "" ==> r == PathJoin(homeDir, ".claude")
  {
    if claudeHomeEnv != "" then claudeHomeEnv else PathJoin(homeDir, ".claude")
  }

  function ContainerClaudeHome(homeDir: string): string { PathJoin(homeDir, ".claude-docker") }
  function ContainerClaudeJSON(homeDir: string): string { PathJoin(homeDir, ".claude-docker.json") }

  /** The options `Execute` hands to the mount builder. */
  function MountOptionsFor(homeDir: string, workDir: string, claudeHomeEnv: string): MountOptions
  {
    MountOptions(homeDir, workDir, ClaudeHome(homeDir, claudeHomeEnv), ContainerClaudeHome(homeDir),
                 ContainerClaudeJSON(homeDir), VolumeName)
  }

  /** Every call of a run in which nothing fails, in order, for the build directory `dir` and the mounts `ms`. */
  function AllCalls(homeDir: string, workDir: string, claudeHomeEnv: string, args: seq<string>,
                    dir: string, ms: seq<Mount>): seq<Call>
  {
    [CheckAvailable, PrepareBuildContext, Build(ImageName, dir), VolumeCreate(VolumeName),
     SyncSettings(ClaudeHome(homeDir, claudeHomeEnv), ContainerClaudeHome(homeDir)),
     EnsureOnboardingState(ContainerClaudeJSON(homeDir)),
     BuildMounts(MountOptionsFor(homeDir, workDir, claudeHomeEnv)),
     RunContainer(RunOptions(ImageName, ms, ClaudeHome(homeDir, claudeHomeEnv), workDir, args))]
  }

  /** The error and the calls of one `Execute`. */
  datatype Trace = Trace(err: Option<Error>, calls: seq<Call>)

  /**
   * What `Execute` does given the collaborators' answers: the calls of
   * `AllCalls` up to and including the first that fails, its error
   * wrapped with the step's description (the container run's own error
   * unwrapped), and the build context's cleanup last once it exists.
   */
  function ExecuteTrace(a: Answers, homeDir: string, workDir: string, claudeHomeEnv: string,
                        args: seq<string>): Trace
  {
    if a.checkErr.Some? then Trace(Some(Wrapped("docker check", a.checkErr.value)), [CheckAvailable])
    else if a.prepared.Err? then
      Trace(Some(Wrapped("preparing build context", a.prepared.error)), [CheckAvailable, PrepareBuildContext])
    else
      var all := AllCalls(homeDir, workDir, claudeHomeEnv, args, a.prepared.value,
                          if a.mounts.Ok? then a.mounts.value else []);
      Trace(Stop(a).0, all[..Stop(a).1] + [Cleanup(a.prepared.value)])
  }

  /**
   * The error of a run whose build context was prepared, and how many
   * calls of `AllCalls` it makes: it stops at the first failing step.
   */
  function Stop(a: Answers): (r: (Option<Error>, nat))
    ensures 3 <= r.1 <= 8
  {
    if a.buildErr.Some? then (Some(Wrapped("building image", a.buildErr.value)), 3)
    else if a.volumeErr.Some? then (Some(Wrapped("creating volume", a.volumeErr.value)), 4)
    else if a.syncErr.Some? then (Some(Wrapped("syncing settings", a.syncErr.value)), 5)
    else if a.onboardingErr.Some? then (Some(Wrapped("ensuring onboarding state", a.onboardingErr.value)), 6)
    else if a.mounts.Err? then (Some(Wrapped("building mounts", a.mounts.error)), 7)
    else (a.runErr, 8)
  }

  /** The step of `AllCalls` a call stands for, so that calls can be compared by position. */
  function StepOf(c: Call): nat
  {
    match c
    case CheckAvailable => 0
    case PrepareBuildContext => 1
    case Build(_, _) => 2
    case VolumeCreate(_) => 3
    case SyncSettings(_, _) => 4
    case EnsureOnboardingState(_) => 5
    case BuildMounts(_) => 6
    case RunContainer(_) => 7
    case Cleanup(_) => 8
  }

  /**
   * The calls keep the order check, prepare, build, volume, sync,
   * onboarding, mounts, run, each at most once, with the cleanup last:
   * every call comes strictly after the one before it, the steps run
   * form an unbroken prefix, and the trace ends with the cleanup exactly
   * when the build context was prepared.
   */
  lemma ExecuteOrder(a: Answers, homeDir: string, workDir: string, claudeHomeEnv: string, args: seq<string>)
    ensures var t := ExecuteTrace(a, homeDir, workDir, claudeHomeEnv, args);
      && (forall i, j :: 0 <= i < j < |t.calls| ==> StepOf(t.calls[i]) < StepOf(t.calls[j]))
      && (forall i :: 0 <= i < |t.calls| && !t.calls[i].Cleanup? ==> StepOf(t.calls[i]) == i)
      && (t.calls[|t.calls| - 1].Cleanup? <==> a.checkErr.None? && a.prepared.Ok?)
  {
    var t := ExecuteTrace(a, homeDir, workDir, claudeHomeEnv, args);
    if a.checkErr.None? && a.prepared.Ok? {
      var all := AllCalls(homeDir, workDir, claudeHomeEnv, args, a.prepared.value,
                          if a.mounts.Ok? then a.mounts.value else []);
      assert forall i :: 0 <= i < |all| ==> StepOf(all[i]) == i;
    }
  }

  /**
   * The first failing step stops the run: no later step is called, and
   * the error is that step's, wrapped with its description. The cases of
   * run_test.go are instances: a failed check calls nothing else, a
   * failed build creates no volume, and a failed sync or mount build runs
   * no container.
   */
  lemma FirstFailureStops(a: Answers, homeDir: string, workDir: string, claudeHomeEnv: string, args: seq<string>)
    ensures var t := ExecuteTrace(a, homeDir, workDir, claudeHomeEnv, args);
      && (a.checkErr.Some? ==> t.calls == [CheckAvailable] && Is(t.err.value, a.checkErr.value))
      && (a.checkErr.None? && a.prepared.Ok? && a.buildErr.Some? ==>
            (forall c :: c in t.calls ==> !c.VolumeCreate?) && Is(t.err.value, a.buildErr.value))
      && (a.checkErr.None? && a.prepared.Ok? && a.syncErr.Some? ==>
            (forall c :: c in t.calls ==> !c.RunContainer?) && t.err.Some?)
      && (a.checkErr.None? && a.prepared.Ok? && a.mounts.Err? ==>
            (forall c :: c in t.calls ==> !c.RunContainer?) && t.err.Some?)
      && (t.err.None? <==> a.checkErr.None? && a.prepared.Ok? && a.buildErr.None? && a.volumeErr.None?
                           && a.syncErr.None? && a.onboardingErr.None? && a.mounts.Ok? && a.runErr.None?)
  {
    var t := ExecuteTrace(a, homeDir, workDir, claudeHomeEnv, args);
    ExecuteOrder(a, homeDir, workDir, claudeHomeEnv, args);
    if a.checkErr.None? && a.prepared.Ok? {
      forall c | c in t.calls ensures StepOf(c) < 3 || StepOf(c) == 8 || a.buildErr.None? {
      }
    }
  }

  /**
   * The case of run_test.go where everything succeeds: every collaborator
   * is called once, the image and volume have their fixed names, and the
   * container runs in the working directory with the user's arguments.
   */
  lemma FullFlow(a: Answers, homeDir: string, workDir: string, claudeHomeEnv: string, args: seq<string>)
    requires a.checkErr.None? && a.prepared.Ok? && a.buildErr.None? && a.volumeErr.None?
    requires a.syncErr.None? && a.onboardingErr.None? && a.mounts.Ok? && a.runErr.None?
    ensures var t := ExecuteTrace(a, homeDir, workDir, claudeHomeEnv, args);
      && t.err.None?
      && |t.calls| == 9
      && t.calls[2] == Build(ImageName, a.prepared.value)
      && t.calls[3] == VolumeCreate(VolumeName)
      && t.calls[7] == RunContainer(RunOptions(ImageName, a.mounts.value, ClaudeHome(homeDir, claudeHomeEnv), workDir, args))
      && t.calls[8] == Cleanup(a.prepared.value)
  {
  }

  /** `Runner`: the collaborators and the two directories it works in; `claudeHomeEnv` is the value of `CLAUDE_HOME`. */
  class Runner {
    const collaborators: Collaborators
    const homeDir: string
    const workDir: string
    const claudeHomeEnv: string

    constructor(collaborators: Collaborators, homeDir: string, workDir: string, claudeHomeEnv: string)
      ensures this.collaborators == collaborators && this.homeDir == homeDir
      ensures this.workDir == workDir && this.claudeHomeEnv == claudeHomeEnv
    {
      this.collaborators, this.homeDir, this.workDir, this.claudeHomeEnv := collaborators, homeDir, workDir, claudeHomeEnv;
    }

    /** `Execute`: the workflow for the command-line arguments `args`, as `ExecuteTrace` describes it. */
    method Execute(args: seq<string>) returns (err: Option<Error>)
      modifies collaborators
      ensures var t := ExecuteTrace(AnswersOf(collaborators), homeDir, workDir, claudeHomeEnv, args);
        err == t.err && collaborators.calls == old(collaborators.calls) + t.calls
    {
      var c := collaborators;
      ghost var a := AnswersOf(c);
      ghost var start := c.calls;
      c.Record(CheckAvailable);
      if c.checkErr.Some? {
        return Some(Wrapped("docker check", c.checkErr.value));
      }
      c.Record(PrepareBuildContext);
      if c.prepared.Err? {
        return Some(Wrapped("preparing build context", c.prepared.error));
      }
      var buildDir := c.prepared.value;
      ghost var all := AllCalls(homeDir, workDir, claudeHomeEnv, args, buildDir,
                                if c.mounts.Ok? then c.mounts.value else []);
      assert c.calls == start + all[..2];
      err := Steps(args, buildDir);
      // the cleanup deferred once the build context exists
      c.Record(Cleanup(buildDir));
      assert all[..2] + all[2..Stop(a).1] == all[..Stop(a).1];
    }

    /** The steps of `Execute` after the build context is prepared in `buildDir`, up to the first that fails. */
    method Steps(args: seq<string>, buildDir: string) returns (err: Option<Error>)
      requires collaborators.prepared == Ok(buildDir)
      modifies collaborators
      ensures err == Stop(AnswersOf(collaborators)).0
      ensures var all := AllCalls(homeDir, workDir, claudeHomeEnv, args, buildDir,
                                  if collaborators.mounts.Ok? then collaborators.mounts.value else []);
        collaborators.calls == old(collaborators.calls) + all[2..Stop(AnswersOf(collaborators)).1]
    {
      var c := collaborators;
      ghost var all := AllCalls(homeDir, workDir, claudeHomeEnv, args, buildDir,
                                if c.mounts.Ok? then c.mounts.value else []);
      c.Record(Build(ImageName, buildDir));
      if c.buildErr.Some? {
        assert all[2..3] == [all[2]];
        return Some(Wrapped("building image", c.buildErr.value));
      }
      c.Record(VolumeCreate(VolumeName));
      if c.volumeErr.Some? {
        assert all[2..4] == [all[2], all[3]];
        return Some(Wrapped("creating volume", c.volumeErr.value));
      }
      var claudeHome := ClaudeHome(homeDir, claudeHomeEnv);
      c.Record(SyncSettings(claudeHome, ContainerClaudeHome(homeDir)));
      if c.syncErr.Some? {
        assert all[2..5] == [all[2], all[3], all[4]];
        return Some(Wrapped("syncing settings", c.syncErr.value));
      }
      c.Record(EnsureOnboardingState(ContainerClaudeJSON(homeDir)));
      if c.onboardingErr.Some? {
        assert all[2..6] == [all[2], all[3], all[4], all[5]];
        return Some(Wrapped("ensuring onboarding state", c.onboardingErr.value));
      }
      c.Record(BuildMounts(MountOptions(homeDir, workDir, claudeHome, ContainerClaudeHome(homeDir),
                                        ContainerClaudeJSON(homeDir), VolumeName)));
      if c.mounts.Err? {
        assert all[2..7] == [all[2], all[3], all[4], all[5], all[6]];
        return Some(Wrapped("building mounts", c.mounts.error));
      }
      c.Record(RunContainer(RunOptions(ImageName, c.mounts.value, claudeHome, workDir, args)));
      assert all[2..8] == [all[2], all[3], all[4], all[5], all[6], all[7]];
      err := c.runErr;
    }
  }

  /** `NewRunner`: the home and working directories, or the first error detecting them. */
  function NewRunnerDirs(homeDir: Result<string, Error>, workDir: Result<string, Error>): (r: Result<(string, string), Error>)
    ensures homeDir.Err? ==> r == Err(Wrapped("detecting home directory", homeDir.error))
    ensures homeDir.Ok? && workDir.Err? ==> r == Err(Wrapped("detecting working directory", workDir.error))
    ensures r.Ok? <==> homeDir.Ok? && workDir.Ok?
    ensures r.Ok? ==> r.value == (homeDir.value, workDir.value)
  {
    if homeDir.Err? then Err(Wrapped("detecting home directory", homeDir.error))
    else if workDir.Err? then Err(Wrapped("detecting working directory", workDir.error))
    else Ok((homeDir.value, workDir.value))
  }

  /** What `Run` did. */
  datatype RunOutcome =
    | ShowedVersion
    | WorktreeDone(err: Option<Error>)
    | RunnerFailed(cause: Error)
    | Executed(err: Option<Error>)

  /** The exit code `Run` returns for an outcome. */
  function ExitCode(o: RunOutcome): int
  {
    match o
    case ShowedVersion => 0
    case WorktreeDone(e) => if e.None? then 0 else 1
    case RunnerFailed(_) => 1
    case Executed(e) => if e.None? then 0 else 1
  }

  /**
   * `Run`: the version flag first, then the worktree flag, then the
   * container workflow. `worktreeErr` is what `worktree.Run` returns, and
   * `homeDir`, `workDir` and `claudeHomeEnv` are what the process
   * environment gives.
   */
  method Run(args: seq<string>, worktreeErr: Option<Error>, homeDir: Result<string, Error>,
             workDir: Result<string, Error>, claudeHomeEnv: string, collaborators: Collaborators)
    returns (code: int, o: RunOutcome)
    modifies collaborators
    ensures code == ExitCode(o)
    ensures (exists i :: 0 <= i < |args| && IsVersionArg(args[i])) ==>
              o == ShowedVersion && collaborators.calls == old(collaborators.calls)
    ensures (forall i :: 0 <= i < |args| ==> !IsVersionArg(args[i])) && "--worktree" in args ==>
              o == WorktreeDone(worktreeErr) && collaborators.calls == old(collaborators.calls)
    ensures (forall i :: 0 <= i < |args| ==> !IsVersionArg(args[i])) && "--worktree" !in args ==>
              var dirs := NewRunnerDirs(homeDir, workDir);
              if dirs.Err? then o == RunnerFailed(dirs.error) && collaborators.calls == old(collaborators.calls)
              else
                var t := ExecuteTrace(AnswersOf(collaborators), dirs.value.0, dirs.value.1, claudeHomeEnv, args);
                o == Executed(t.err) && collaborators.calls == old(collaborators.calls) + t.calls
  {
    var version := HasVersionFlag(args);
    if version {
      return 0, ShowedVersion;
    }
    var worktree := HasWorktreeFlag(args);
    if worktree {
      o := WorktreeDone(worktreeErr);
      return ExitCode(o), o;
    }
    var dirs := NewRunnerDirs(homeDir, workDir);
    if dirs.Err? {
      return 1, RunnerFailed(dirs.error);
    }
    var runner := new Runner(collaborators, dirs.value.0, dirs.value.1, claudeHomeEnv);
    var err := runner.Execute(args);
    o := Executed(err);
    code := ExitCode(o);
  }

  /** "--version" wins over "--worktree": with both present nothing else happens and the exit code is 0. */
  method VersionBeforeWorktree(collaborators: Collaborators)
    modifies collaborators
  {
    var code, o := Run(["--worktree", "-v"], Some(Failure("boom")), Ok("/home/u"), Ok("/w"), "", collaborators);
    assert IsVersionArg(["--worktree", "-v"][1]);
    assert o == ShowedVersion && code == 0;
  }
}
