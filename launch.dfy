/**
 * The launch stage (internal/stage/launch.go): picks the launcher for the
 * profile's launch mode through a factory, the default one unless the
 * stage has its own, and runs it.
 */
module Launch {
  import opened Wrappers
  import opened Errors
  import opened Profiles
  import opened Pipelines

  /** The launchers; `OtherLauncher` is one that a custom factory supplies. */
  datatype Launcher = ShellLauncher | ClaudeLauncher | ZellijLauncher | OtherLauncher(id: nat)

  /** `defaultLauncherFactory`: one launcher per known launch mode, an error for any other mode. */
  function DefaultLauncherFactory(mode: string): (r: Result<Launcher, Error>)
    ensures r.Ok? <==> KnownLaunch(mode)
    ensures r.Ok? ==> (r.value == ShellLauncher <==> mode == LaunchShell)
                      && (r.value == ClaudeLauncher <==> mode == LaunchClaude)
                      && (r.value == ZellijLauncher <==> mode == LaunchZellij)
    ensures r.Err? ==> r.error == Failure("unknown launch mode: " + Quote(mode))
  {
    if mode == LaunchShell then Ok(ShellLauncher)
    else if mode == LaunchClaude then Ok(ClaudeLauncher)
    else if mode == LaunchZellij then Ok(ZellijLauncher)
    else Err(Failure("unknown launch mode: " + Quote(mode)))
  }

  /** `LaunchStage`; a nil `LauncherFactory` is `None`. */
  datatype LaunchStage = LaunchStage(launcherFactory: Option<string -> Result<Launcher, Error>>)

  const LaunchStageName := "launch"

  /** The launcher that ran, if any, and the error `Run` returns. */
  datatype LaunchResult = LaunchResult(launched: Option<Launcher>, err: Option<Error>)

  /** The factory `Run` uses: the stage's own, or the default one when it has none. */
  function Factory(s: LaunchStage): string -> Result<Launcher, Error>
  {
    if s.launcherFactory.Some? then s.launcherFactory.value else DefaultLauncherFactory
  }

  /**
   * `LaunchStage.Run`: the launcher the factory gives for the profile's
   * launch mode runs on the context; `launch` is what a launcher's
   * `Launch` returns there.
   */
  function Run(s: LaunchStage, launch: (Launcher, Context) -> Option<Error>, ec: Context): (r: LaunchResult)
    ensures r.launched.None? <==> Factory(s)(ec.profile.launch).Err?
    ensures r.launched.None? ==> r.err == Some(Factory(s)(ec.profile.launch).error)
    ensures r.launched.Some? ==>
              r.launched.value == Factory(s)(ec.profile.launch).value && r.err == launch(r.launched.value, ec)
  {
    match Factory(s)(ec.profile.launch)
    case Err(e) => LaunchResult(None, Some(e))
    case Ok(l) => LaunchResult(Some(l), launch(l, ec))
  }

  /** A stage without a factory behaves exactly like one given the default factory. */
  lemma NilFactoryIsDefault(launch: (Launcher, Context) -> Option<Error>, ec: Context)
    ensures Run(LaunchStage(None), launch, ec) == Run(LaunchStage(Some(DefaultLauncherFactory)), launch, ec)
  {
  }

  /**
   * With the default factory, every profile that passes `Validate` gets
   * the launcher named by its launch mode, and the result is that
   * launcher's own, unwrapped.
   */
  lemma ValidProfileLaunches(launch: (Launcher, Context) -> Option<Error>, ec: Context)
    requires Validate(ec.profile).None?
    ensures var r := Run(LaunchStage(None), launch, ec);
      && r.launched.Some?
      && r.launched.value == (if ec.profile.launch == LaunchShell then ShellLauncher
                              else if ec.profile.launch == LaunchClaude then ClaudeLauncher
                              else ZellijLauncher)
      && r.err == launch(r.launched.value, ec)
  {
  }

  /** An unknown mode fails before any launcher runs, and the message says so. */
  lemma UnknownModeFails(launch: (Launcher, Context) -> Option<Error>, ec: Context)
    requires !KnownLaunch(ec.profile.launch)
    ensures var r := Run(LaunchStage(None), launch, ec);
      r.launched.None? && r.err.Some? && Contains(Message(r.err.value), "unknown launch mode")
  {
    var m := Message(Failure("unknown launch mode: " + Quote(ec.profile.launch)));
    assert m[0..19] == "unknown launch mode";
  }

  /**
   * The launch stage as a pipeline stage: named "launch", failing with
   * `Run`'s error. A launcher here cannot change the context it is given.
   */
  function AsStage(s: LaunchStage, launch: (Launcher, Context) -> Option<Error>): (st: Stage)
    ensures st.name == LaunchStageName
    ensures forall c :: st.run(c) == StageStep(c, Run(s, launch, c).err)
  {
    Stage(LaunchStageName, c => StageStep(c, Run(s, launch, c).err))
  }

  /** The case of launch_test.go: a launcher's error surfaces unchanged from `Run` and as "launch: <error>" from a pipeline holding only this stage. */
  lemma LauncherErrorPropagates(s: LaunchStage, launch: (Launcher, Context) -> Option<Error>, ec: Context, e: Error)
    requires Factory(s)(ec.profile.launch).Ok?
    requires launch(Factory(s)(ec.profile.launch).value, ec) == Some(e)
    ensures Run(s, launch, ec).err == Some(e)
    ensures RunStages([AsStage(s, launch)], ec).err == Some(Wrapped(LaunchStageName, e))
  {
    assert [AsStage(s, launch)][1..] == [];
  }
}
