/**
 * The stage pipeline (internal/pipeline/pipeline.go and context.go): a
 * fixed list of named stages run in order over one shared, mutable
 * execution context, stopping at the first stage that fails.
 */
module Pipelines {
  import opened Wrappers
  import opened Errors
  import opened Profiles
  import opened Mounts

  /** The fields of `ExecutionContext`, as one value. */
  datatype Context = Context(
    profile: Profile, profileName: string, homeDir: string, origWorkDir: string,
    workDir: string, worktreePath: string, worktreeBranch: string,
    dockerImage: string, dockerMounts: seq<Mount>, dockerVolume: string)

  /** `ExecutionContext`: the state the stages read and update in place. */
  class ExecutionContext {
    var profile: Profile
    var profileName: string
    var homeDir: string
    var origWorkDir: string
    var workDir: string
    var worktreePath: string
    var worktreeBranch: string
    var dockerImage: string
    var dockerMounts: seq<Mount>
    var dockerVolume: string

    constructor(c: Context)
      ensures Snapshot() == c
    {
      profile, profileName, homeDir, origWorkDir := c.profile, c.profileName, c.homeDir, c.origWorkDir;
      workDir, worktreePath, worktreeBranch := c.workDir, c.worktreePath, c.worktreeBranch;
      dockerImage, dockerMounts, dockerVolume := c.dockerImage, c.dockerMounts, c.dockerVolume;
    }

    /** The current values of all fields. */
    function Snapshot(): Context
      reads this
    {
      Context(profile, profileName, homeDir, origWorkDir, workDir, worktreePath, worktreeBranch,
              dockerImage, dockerMounts, dockerVolume)
    }

    /** Sets all fields at once: what a stage leaves behind. */
    method Store(c: Context)
      modifies this
      ensures Snapshot() == c
    {
      profile, profileName, homeDir, origWorkDir := c.profile, c.profileName, c.homeDir, c.origWorkDir;
      workDir, worktreePath, worktreeBranch := c.workDir, c.worktreePath, c.worktreeBranch;
      dockerImage, dockerMounts, dockerVolume := c.dockerImage, c.dockerMounts, c.dockerVolume;
    }
  }

  /** What one run of a stage leaves: the context it changed, and its error, if any. */
  datatype StageStep = StageStep(ctx: Context, err: Option<Error>)

  /** A `Stage`: its name, and what its `Run` makes of the context it is given. */
  datatype Stage = Stage(name: string, run: Context -> StageStep)

  /** What a pipeline run returns and leaves in the context. */
  datatype RunOutcome = RunOutcome(err: Option<Error>, ctx: Context)

  /**
   * The stages run one after another from `c`; the first error is
   * returned wrapped with its stage's name, and no stage after it runs.
   */
  function RunStages(stages: seq<Stage>, c: Context): RunOutcome
    decreases |stages|
  {
    if stages == [] then RunOutcome(None, c)
    else
      var step := stages[0].run(c);
      if step.err.Some? then RunOutcome(Some(Wrapped(stages[0].name, step.err.value)), step.ctx)
      else RunStages(stages[1..], step.ctx)
  }

  /** The contexts the stages that run are given, in order: the first stage gets `c`, each next one what the previous left. */
  function Inputs(stages: seq<Stage>, c: Context): (given: seq<Context>)
    ensures |given| <= |stages|
    decreases |stages|
  {
    if stages == [] then []
    else
      var step := stages[0].run(c);
      if step.err.Some? then [c] else [c] + Inputs(stages[1..], step.ctx)
  }

  /**
   * Stages run in order, each at most once, and stop at the first error:
   * the first stage gets the starting context, every stage that ran but
   * the last succeeded and handed its context to the next; the run
   * succeeds exactly when every stage ran and succeeded, and otherwise
   * the last stage that ran failed and its error, wrapped with its name,
   * is the result.
   */
  lemma {:induction false} RunStagesInOrder(stages: seq<Stage>, c: Context)
    ensures var given, out := Inputs(stages, c), RunStages(stages, c);
      && (|given| > 0 ==> given[0] == c)
      && (forall k :: 0 <= k < |given| - 1 ==>
            stages[k].run(given[k]).err.None? && given[k + 1] == stages[k].run(given[k]).ctx)
      && (out.err.None? <==> |given| == |stages| && (|stages| == 0 || stages[|stages| - 1].run(given[|stages| - 1]).err.None?))
      && (out.err.Some? ==>
            && |given| > 0
            && var last := stages[|given| - 1].run(given[|given| - 1]);
               last.err.Some? && out.err == Some(Wrapped(stages[|given| - 1].name, last.err.value)) && out.ctx == last.ctx)
      && (out.err.None? && |stages| > 0 ==> out.ctx == stages[|stages| - 1].run(given[|stages| - 1]).ctx)
    decreases |stages|
  {
    if stages != [] {
      var step := stages[0].run(c);
      if step.err.None? {
        RunStagesInOrder(stages[1..], step.ctx);
        var rest := Inputs(stages[1..], step.ctx);
        assert Inputs(stages, c) == [c] + rest;
        forall k | 0 <= k < |rest| ensures stages[k + 1] == stages[1..][k] { }
      }
    }
  }

  /** An empty pipeline succeeds and leaves the context as it was. */
  lemma EmptyPipelineSucceeds(c: Context)
    ensures RunStages([], c) == RunOutcome(None, c)
  {
  }

  /** The error of a failed run names the failing stage and wraps that stage's own error. */
  lemma FailureNamesStage(stages: seq<Stage>, c: Context)
    requires RunStages(stages, c).err.Some?
    ensures exists k, cause :: 0 <= k < |stages| && RunStages(stages, c).err == Some(Wrapped(stages[k].name, cause))
              && Contains(Message(Wrapped(stages[k].name, cause)), stages[k].name)
              && Contains(Message(Wrapped(stages[k].name, cause)), Message(cause))
  {
    RunStagesInOrder(stages, c);
    var given := Inputs(stages, c);
    var k := |given| - 1;
    var cause := stages[k].run(given[k]).err.value;
    WrapKeepsCause(stages[k].name, cause);
  }

  /** `Pipeline`: the stages given to `New`. */
  class Pipeline {
    var stages: seq<Stage>

    /** `New`. */
    constructor(stages: seq<Stage>)
      ensures Stages() == stages
    {
      this.stages := stages;
    }

    /** `Stages`: the stages in the order given to `New`. */
    function Stages(): seq<Stage>
      reads this
    {
      stages
    }

    /**
     * `Execute`: runs every stage on `ec` in order and returns the first
     * error, wrapped with the stage's name; `given` is the sequence of
     * contexts the stages were run on.
     */
    method Execute(ec: ExecutionContext) returns (r: Option<Error>, ghost given: seq<Context>)
      modifies ec
      ensures r == RunStages(stages, old(ec.Snapshot())).err
      ensures ec.Snapshot() == RunStages(stages, old(ec.Snapshot())).ctx
      ensures given == Inputs(stages, old(ec.Snapshot()))
    {
      ghost var c0 := ec.Snapshot();
      given := [];
      var i := 0;
      while i < |stages|
        invariant 0 <= i <= |stages|
        invariant RunStages(stages, c0) == RunStages(stages[i..], ec.Snapshot())
        invariant Inputs(stages, c0) == given + Inputs(stages[i..], ec.Snapshot())
      {
        var s := stages[i];
        assert stages[i..][0] == s && stages[i..][1..] == stages[i + 1..];
        ghost var before := ec.Snapshot();
        var step := s.run(ec.Snapshot());
        ec.Store(step.ctx);
        given := given + [before];
        if step.err.Some? {
          return Some(Wrapped(s.name, step.err.value)), given;
        }
        i := i + 1;
      }
      r := None;
    }
  }

  /** A stage that always succeeds and changes nothing. */
  function Pass(name: string): Stage
  {
    Stage(name, c => StageStep(c, None))
  }

  /** The case of pipeline_test.go where the second of three stages fails with "boom". */
  lemma SecondStageFails(c: Context)
    ensures var stages := [Pass("stage-1"), Stage("stage-2", c => StageStep(c, Some(Failure("boom")))), Pass("stage-3")];
      && Inputs(stages, c) == [c, c]
      && RunStages(stages, c) == RunOutcome(Some(Wrapped("stage-2", Failure("boom"))), c)
  {
    var stages := [Pass("stage-1"), Stage("stage-2", c => StageStep(c, Some(Failure("boom")))), Pass("stage-3")];
    assert stages[1..][1..] == [Pass("stage-3")];
  }
}
