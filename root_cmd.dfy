/**
 * The profile-driven command (internal/cmd/root.go): the version flag and
 * the `update` subcommand, the choice of the profile, the stage list a
 * profile calls for, and the one-line description of a profile.
 */
module RootCmd {
  import opened Wrappers
  import opened Errors
  import opened Text
  import opened Profiles
  import opened Pipelines
  import RunCmd
  import LaunchStages = Launch

  /** The stages `buildStages` can put into a pipeline. */
  datatype StageKind = WorktreeStage | DockerStage | LaunchStage

  /** The `Name` of each stage. */
  function StageName(k: StageKind): string
  {
    match k
    case WorktreeStage => "worktree"
    case DockerStage => "docker"
    case LaunchStage => "launch"
  }

  /**
   * `stages` is the list a profile calls for: a worktree stage exactly
   * when the profile has worktree settings, and then first; a docker stage
   * exactly when the environment is docker, and then just before the end;
   * and one launch stage, last.
   */
  ghost predicate StagesFor(p: Profile, stages: seq<StageKind>)
  {
    && |stages| == 1 + (if p.worktree.Some? then 1 else 0) + (if p.environment == EnvironmentDocker then 1 else 0)
    && stages[|stages| - 1] == LaunchStage
    && (forall i :: 0 <= i < |stages| - 1 ==> stages[i] != LaunchStage)
    && (WorktreeStage in stages <==> p.worktree.Some?)
    && (WorktreeStage in stages ==> stages[0] == WorktreeStage)
    && (DockerStage in stages <==> p.environment == EnvironmentDocker)
    && (DockerStage in stages ==> stages[|stages| - 2] == DockerStage)
  }

  /** `buildStages`: appends the worktree stage, the docker stage and the launch stage as the profile calls for them. */
  method BuildStages(p: Profile) returns (stages: seq<StageKind>)
    ensures StagesFor(p, stages)
  {
    stages := [];
    if p.worktree.Some? {
      stages := stages + [WorktreeStage];
    }
    if p.environment == EnvironmentDocker {
      stages := stages + [DockerStage];
    }
    stages := stages + [LaunchStage];
  }

  /** The list `StagesFor` describes, written out: the conditions decide it completely. */
  lemma StagesForIs(p: Profile, stages: seq<StageKind>)
    requires StagesFor(p, stages)
    ensures stages == (if p.worktree.Some? then [WorktreeStage] else [])
                      + (if p.environment == EnvironmentDocker then [DockerStage] else [])
                      + [LaunchStage]
  {
    if |stages| == 2 {
      assert stages[0] != LaunchStage;
      assert stages[0] == WorktreeStage || stages[0] == DockerStage;
    }
    if |stages| == 3 {
      assert stages[0] == WorktreeStage && stages[1] == DockerStage;
    }
  }

  /** Two lists for one profile are the same list. */
  lemma StagesForUnique(p: Profile, a: seq<StageKind>, b: seq<StageKind>)
    requires StagesFor(p, a) && StagesFor(p, b)
    ensures a == b
  {
    StagesForIs(p, a);
    StagesForIs(p, b);
  }

  /** The cases of root_test.go: the stage names for four profiles. */
  method BuildStagesExamples()
  {
    var s := BuildStages(Profile(None, "docker", "claude", None));
    StagesForIs(Profile(None, "docker", "claude", None), s);
    assert s == [DockerStage, LaunchStage];
    s := BuildStages(Profile(Some(WorktreeConfig("")), "host", "shell", None));
    StagesForIs(Profile(Some(WorktreeConfig("")), "host", "shell", None), s);
    assert s == [WorktreeStage, LaunchStage];
    s := BuildStages(Profile(Some(WorktreeConfig("")), "docker", "zellij", None));
    StagesForIs(Profile(Some(WorktreeConfig("")), "docker", "zellij", None), s);
    assert s == [WorktreeStage, DockerStage, LaunchStage];
    assert StageName(s[1]) == "docker";
    s := BuildStages(Profile(None, "host", "claude", None));
    StagesForIs(Profile(None, "host", "claude", None), s);
    assert s == [LaunchStage];
  }

  /**
   * `describeProfile`: "worktree" when the profile has worktree settings,
   * then the environment and the launch mode, joined by " + ".
   */
  function DescribeProfile(p: Profile): string
  {
    var parts := (if p.worktree.Some? then ["worktree"] else []) + [p.environment, p.launch];
    Join(parts, " + ")
  }

  /** The description written out: "worktree + " when there are worktree settings, then "<environment> + <launch>". */
  lemma DescribeProfileForm(p: Profile)
    ensures p.worktree.Some? ==> DescribeProfile(p) == "worktree + " + p.environment + " + " + p.launch
    ensures p.worktree.None? ==> DescribeProfile(p) == p.environment + " + " + p.launch
  {
    var el := [p.environment, p.launch];
    assert el[1..] == [p.launch];
    assert Join(el, " + ") == p.environment + " + " + p.launch;
    if p.worktree.Some? {
      var parts := ["worktree"] + el;
      assert parts[1..] == el;
      assert Join(parts, " + ") == "worktree" + " + " + Join(el, " + ");
      assert "worktree" + " + " + (p.environment + " + " + p.launch) == "worktree + " + p.environment + " + " + p.launch;
    } else {
      assert [] + el == el;
    }
  }

  /** The cases of root_test.go. */
  lemma DescribeProfileExamples()
    ensures DescribeProfile(Profile(None, "docker", "claude", None)) == "docker + claude"
    ensures DescribeProfile(Profile(Some(WorktreeConfig("")), "host", "shell", None)) == "worktree + host + shell"
    ensures DescribeProfile(Profile(Some(WorktreeConfig("")), "docker", "zellij", None)) == "worktree + docker + zellij"
  {
    DescribeProfileForm(Profile(None, "docker", "claude", None));
    DescribeProfileForm(Profile(Some(WorktreeConfig("")), "host", "shell", None));
    DescribeProfileForm(Profile(Some(WorktreeConfig("")), "docker", "zellij", None));
  }

  /**
   * For valid profiles the description tells the worktree setting, the
   * environment and the launch mode apart: two valid profiles with the
   * same description agree on all three.
   */
  lemma DescriptionDetermines(p: Profile, q: Profile)
    requires Validate(p).None? && Validate(q).None?
    requires DescribeProfile(p) == DescribeProfile(q)
    ensures p.worktree.Some? == q.worktree.Some?
    ensures p.environment == q.environment && p.launch == q.launch
  {
    DescribeProfileForm(p);
    DescribeProfileForm(q);
    var d := DescribeProfile(p);
    // a valid environment is "host" or "docker", which differ at the first letter
    var off := if p.worktree.Some? then 11 else 0;
    assert d[off] == p.environment[0] && d[off] == q.environment[0];
    assert p.environment == q.environment;
    var rest := off + |p.environment| + 3;
    assert d[rest] == p.launch[0] && d[rest] == q.launch[0];
    assert p.launch == q.launch;
  }

  /** The profile named on the command line: the first argument, unless it is missing or starts with '-'. */
  function RequestedName(args: seq<string>): (r: string)
    ensures |args| > 0 && !HasPrefix(args[0], "-") ==> r == args[0]
    ensures |args| == 0 || HasPrefix(args[0], "-") ==> r == ""
  {
    if |args| > 0 && !HasPrefix(args[0], "-") then args[0] else ""
  }

  /** What `Run` did. */
  datatype RootOutcome =
    | ShowedVersion
    | UpdateDone(updateErr: Option<Error>)
    | LoadFailed(loadErr: Error)
    | InvalidConfig(configErr: ConfigError)
    | ListedProfiles
    | ProfileNotFound(missing: string)
    | EnvironmentFailed(envErr: Error)
    | Ran(name: string, stages: seq<StageKind>, runErr: Option<Error>)

  /** The exit code `Run` returns for an outcome: 0 after the version, a successful update, the profile list or a successful run. */
  function ExitCode(o: RootOutcome): int
  {
    match o
    case ShowedVersion => 0
    case UpdateDone(e) => if e.None? then 0 else 1
    case ListedProfiles => 0
    case Ran(_, _, e) => if e.None? then 0 else 1
    case _ => 1
  }

  /** The stages of the pipeline, with `impl` giving each kind's implementation. */
  function Implemented(impl: StageKind -> Stage, kinds: seq<StageKind>): (stages: seq<Stage>)
    ensures |stages| == |kinds|
    ensures forall i :: 0 <= i < |kinds| ==> stages[i] == impl(kinds[i])
  {
    seq(|kinds|, i requires 0 <= i < |kinds| => impl(kinds[i]))
  }

  /** The context `Run` starts the pipeline with. */
  function StartContext(p: Profile, name: string, homeDir: string, workDir: string): Context
  {
    Context(p, name, homeDir, workDir, workDir, "", "", "", [], "")
  }

  /**
   * `Run`: the version flag first, then the `update` subcommand, then the
   * profile: the one named by the first argument, or the configured
   * default. `updateErr` is what `update.Run` returns, `loaded` what
   * `profile.Load` returns, `homeDir` and `workDir` what the process
   * environment gives, and `impl` the implementation of each stage.
   */
  method Run(args: seq<string>, updateErr: Option<Error>, loaded: Result<Config, Error>,
             homeDir: Result<string, Error>, workDir: Result<string, Error>, impl: StageKind -> Stage)
    returns (code: int, o: RootOutcome)
    ensures code == ExitCode(o)
    ensures (exists i :: 0 <= i < |args| && RunCmd.IsVersionArg(args[i])) ==> o == ShowedVersion
    ensures (forall i :: 0 <= i < |args| ==> !RunCmd.IsVersionArg(args[i])) && |args| > 0 && args[0] == "update" ==>
              o == UpdateDone(updateErr)
    ensures (forall i :: 0 <= i < |args| ==> !RunCmd.IsVersionArg(args[i])) && (|args| == 0 || args[0] != "update") ==>
              if loaded.Err? then o == LoadFailed(loaded.error)
              else
                var cfg := loaded.value;
                var name := if RequestedName(args) != "" then RequestedName(args) else cfg.defaultProfile;
                && (o.InvalidConfig? <==> !ValidConfig(cfg))
                && (ValidConfig(cfg) ==>
                      if name == "" then o == ListedProfiles
                      else if name !in cfg.profiles then o == ProfileNotFound(name)
                      else if homeDir.Err? then o == EnvironmentFailed(homeDir.error)
                      else if workDir.Err? then o == EnvironmentFailed(workDir.error)
                      else
                        && o.Ran? && o.name == name && StagesFor(cfg.profiles[name], o.stages)
                        && o.runErr == RunStages(Implemented(impl, o.stages),
                                                 StartContext(cfg.profiles[name], name, homeDir.value, workDir.value)).err)
  {
    var version := RunCmd.HasVersionFlag(args);
    if version {
      return 0, ShowedVersion;
    }
    if |args| > 0 && args[0] == "update" {
      o := UpdateDone(updateErr);
      return ExitCode(o), o;
    }
    var name := RequestedName(args);
    if loaded.Err? {
      return 1, LoadFailed(loaded.error);
    }
    var cfg := loaded.value;
    var configErr := ValidateConfig(cfg);
    if configErr.Some? {
      return 1, InvalidConfig(configErr.value);
    }
    if name == "" {
      if cfg.defaultProfile != "" {
        name := cfg.defaultProfile;
      } else {
        return 0, ListedProfiles;
      }
    }
    if name !in cfg.profiles {
      return 1, ProfileNotFound(name);
    }
    var p := cfg.profiles[name];
    // the selected profile is checked once more; a configuration that passed is never stopped here
    var problem := Validate(p);
    SelectedProfileValid(cfg, name);
    assert problem.None?;
    o := Launch(p, name, homeDir, workDir, impl);
    code := ExitCode(o);
  }

  /**
   * The end of `Run` once the profile `p` is selected as `name`: the home
   * and working directories, then the profile's stages run in order on a
   * fresh context.
   */
  method Launch(p: Profile, name: string, homeDir: Result<string, Error>, workDir: Result<string, Error>,
                impl: StageKind -> Stage)
    returns (o: RootOutcome)
    ensures if homeDir.Err? then o == EnvironmentFailed(homeDir.error)
      else if workDir.Err? then o == EnvironmentFailed(workDir.error)
      else
        && o.Ran? && o.name == name && StagesFor(p, o.stages)
        && o.runErr == RunStages(Implemented(impl, o.stages), StartContext(p, name, homeDir.value, workDir.value)).err
  {
    if homeDir.Err? {
      return EnvironmentFailed(homeDir.error);
    }
    if workDir.Err? {
      return EnvironmentFailed(workDir.error);
    }
    var ec := new ExecutionContext(StartContext(p, name, homeDir.value, workDir.value));
    var kinds := BuildStages(p);
    var pipe := new Pipeline(Implemented(impl, kinds));
    var err, given := pipe.Execute(ec);
    o := Ran(name, kinds, err);
  }

  /**
   * Once the configuration passes `ValidateConfig`, the profile `Run`
   * selects passes `Validate`, so the second check in `Run` never fails.
   */
  lemma SelectedProfileValid(cfg: Config, name: string)
    requires ValidConfig(cfg) && name in cfg.profiles
    ensures Validate(cfg.profiles[name]).None?
  {
  }

  /**
   * `impl` with the launch stage root.go appends last: a `LaunchStage`
   * without a factory, so the default launcher factory.
   */
  ghost predicate DefaultLaunch(impl: StageKind -> Stage, launch: (LaunchStages.Launcher, Context) -> Option<Error>)
  {
    impl(LaunchStage) == LaunchStages.AsStage(LaunchStages.LaunchStage(None), launch)
  }

  /**
   * With that launch stage, a valid host profile without worktree
   * settings runs the launch stage alone: the launcher its mode names runs
   * on the starting context, and the run fails exactly when that launcher
   * does, with its error wrapped as "launch: …".
   */
  lemma HostProfileLaunches(p: Profile, name: string, homeDir: string, workDir: string, kinds: seq<StageKind>,
                            impl: StageKind -> Stage, launch: (LaunchStages.Launcher, Context) -> Option<Error>)
    requires Validate(p).None? && p.worktree.None? && p.environment == EnvironmentHost
    requires StagesFor(p, kinds) && DefaultLaunch(impl, launch)
    ensures var c := StartContext(p, name, homeDir, workDir);
      var e := launch(LaunchStages.DefaultLauncherFactory(p.launch).value, c);
      && kinds == [LaunchStage]
      && RunStages(Implemented(impl, kinds), c).err == (if e.None? then None else Some(Wrapped("launch", e.value)))
  {
    var c := StartContext(p, name, homeDir, workDir);
    StagesForIs(p, kinds);
    LaunchStages.ValidProfileLaunches(launch, c);
    var stages := Implemented(impl, kinds);
    assert stages == [impl(LaunchStage)] && stages[1..] == [];
  }

  /** The version flag wins over the `update` subcommand: "update -v" only shows the version. */
  method VersionBeforeUpdate(loaded: Result<Config, Error>, impl: StageKind -> Stage)
  {
    var code, o := Run(["update", "-v"], Some(Failure("offline")), loaded, Ok("/home/u"), Ok("/w"), impl);
    assert RunCmd.IsVersionArg(["update", "-v"][1]);
    assert o == ShowedVersion && code == 0;
  }
}
