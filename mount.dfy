/**
 * The container's mount list (internal/mount/mount.go): four fixed
 * mounts, the host's git, gh and ssh settings when they exist, and the
 * main `.git` directory of a worktree that lies outside the workspace.
 * The file system, `DetectWorktree` and `IsSubpath` are given as
 * functions.
 */
module Mounts {
  import opened Wrappers
  import opened Errors
  import opened Text

  /** `docker.Mount`: a bind mount, or a named volume when `isVolume`. */
  datatype Mount = Mount(source: string, target: string, readOnly: bool, isVolume: bool)

  /** `MountOptions`. */
  datatype MountOptions = MountOptions(homeDir: string, workDir: string, claudeHome: string,
                                       containerClaudeHome: string, containerClaudeJSON: string,
                                       volumeName: string)

  /**
   * What the mount builder asks of the host: `stat` is `None` when
   * `os.Stat` fails and otherwise tells whether the path is a directory;
   * `detectWorktree` and `isSubpath` stand for `DetectWorktree` and
   * `IsSubpath`.
   */
  datatype Host = Host(stat: string -> Option<bool>, detectWorktree: string -> Result<string, Error>,
                       isSubpath: (string, string) -> bool)

  /** `fileExists`: the path exists and is not a directory. */
  predicate FileExists(host: Host, path: string)
  {
    host.stat(path) == Some(false)
  }

  /** `dirExists`: the path exists and is a directory. */
  predicate DirExists(host: Host, path: string)
  {
    host.stat(path) == Some(true)
  }

  const GitconfigTarget := "/home/claude/.gitconfig"
  const GhTarget := "/home/claude/.config/gh"
  const SshTarget := "/home/claude/.ssh-host"

  function GitconfigPath(homeDir: string): string { PathJoin(homeDir, ".gitconfig") }
  function GhPath(homeDir: string): string { PathJoin(PathJoin(homeDir, ".config"), "gh") }
  function SshPath(homeDir: string): string { PathJoin(homeDir, ".ssh") }

  function GitconfigMount(homeDir: string): Mount { Mount(GitconfigPath(homeDir), GitconfigTarget, false, false) }
  function GhMount(homeDir: string): Mount { Mount(GhPath(homeDir), GhTarget, false, false) }
  function SshMount(homeDir: string): Mount { Mount(SshPath(homeDir), SshTarget, true, false) }

  /** The position of an optional mount in the order gitconfig, gh, ssh. */
  function OptionalRank(m: Mount): int
  {
    if m.target == GitconfigTarget then 0 else if m.target == GhTarget then 1 else 2
  }

  /**
   * `ms` is what `optionalMounts` may return for `homeDir`: each of the
   * three mounts is present exactly when its host path exists in the
   * required form, nothing else is present, and they come in the order
   * gitconfig, gh, ssh without repetition.
   */
  ghost predicate OptionalFor(homeDir: string, host: Host, ms: seq<Mount>)
  {
    && (GitconfigMount(homeDir) in ms <==> FileExists(host, GitconfigPath(homeDir)))
    && (GhMount(homeDir) in ms <==> DirExists(host, GhPath(homeDir)))
    && (SshMount(homeDir) in ms <==> DirExists(host, SshPath(homeDir)))
    && (forall k :: 0 <= k < |ms| ==> ms[k] == GitconfigMount(homeDir) || ms[k] == GhMount(homeDir) || ms[k] == SshMount(homeDir))
    && (forall i, j :: 0 <= i < j < |ms| ==> OptionalRank(ms[i]) < OptionalRank(ms[j]))
  }

  /** Exactly one list satisfies `OptionalFor`: the conditions decide the optional mounts completely. */
  lemma OptionalForUnique(homeDir: string, host: Host, a: seq<Mount>, b: seq<Mount>)
    requires OptionalFor(homeDir, host, a) && OptionalFor(homeDir, host, b)
    ensures a == b
  {
    OptionalIsFilter(homeDir, host, a);
    OptionalIsFilter(homeDir, host, b);
  }

  /** The list `OptionalFor` describes, written out. */
  lemma OptionalIsFilter(homeDir: string, host: Host, ms: seq<Mount>)
    requires OptionalFor(homeDir, host, ms)
    ensures ms == (if FileExists(host, GitconfigPath(homeDir)) then [GitconfigMount(homeDir)] else [])
                  + (if DirExists(host, GhPath(homeDir)) then [GhMount(homeDir)] else [])
                  + (if DirExists(host, SshPath(homeDir)) then [SshMount(homeDir)] else [])
  {
    var g, h, s := GitconfigMount(homeDir), GhMount(homeDir), SshMount(homeDir);
    assert OptionalRank(g) == 0 && OptionalRank(h) == 1 && OptionalRank(s) == 2;
    var expected := (if g in ms then [g] else []) + (if h in ms then [h] else []) + (if s in ms then [s] else []);
    if ms != [] {
      RankBound(ms, |ms| - 1);
    }
    if ms != [] {
      assert OptionalRank(ms[0]) <= OptionalRank(ms[|ms| - 1]);
    }
    if |ms| == 2 {
      assert OptionalRank(ms[0]) < OptionalRank(ms[1]);
    }
    if |ms| == 3 {
      assert OptionalRank(ms[0]) < OptionalRank(ms[1]) < OptionalRank(ms[2]);
      assert ms == [g, h, s];
    }
    assert ms == expected;
  }

  /** In a list ordered by rank, the mount at position `k` has rank at least `k`. */
  lemma {:induction false} RankBound(ms: seq<Mount>, k: nat)
    requires forall i, j :: 0 <= i < j < |ms| ==> OptionalRank(ms[i]) < OptionalRank(ms[j])
    requires k < |ms|
    ensures OptionalRank(ms[k]) >= k
  {
    if k > 0 {
      RankBound(ms, k - 1);
    }
  }

  /** `optionalMounts`: appends the gitconfig, gh and ssh mounts whose host paths exist. */
  method OptionalMounts(homeDir: string, host: Host) returns (mounts: seq<Mount>)
    ensures OptionalFor(homeDir, host, mounts)
  {
    mounts := [];
    var gitconfig := GitconfigPath(homeDir);
    if FileExists(host, gitconfig) {
      mounts := mounts + [Mount(gitconfig, GitconfigTarget, false, false)];
    }
    ghost var first := mounts;
    var ghConfig := GhPath(homeDir);
    if DirExists(host, ghConfig) {
      mounts := mounts + [Mount(ghConfig, GhTarget, false, false)];
    }
    ghost var second := mounts;
    var sshDir := SshPath(homeDir);
    if DirExists(host, sshDir) {
      mounts := mounts + [Mount(sshDir, SshTarget, true, false)];
    }
    ghost var g, h, s := GitconfigMount(homeDir), GhMount(homeDir), SshMount(homeDir);
    assert first == (if FileExists(host, gitconfig) then [g] else []);
    assert second == first + (if DirExists(host, ghConfig) then [h] else []);
    assert mounts == second + (if DirExists(host, sshDir) then [s] else []);
    PickedInOrder(homeDir, FileExists(host, gitconfig), DirExists(host, ghConfig), DirExists(host, sshDir));
  }

  /** The optional mounts picked by `x`, `y` and `z`, in the order gitconfig, gh, ssh: each present exactly when picked, once, and in rank order. */
  lemma PickedInOrder(homeDir: string, x: bool, y: bool, z: bool)
    ensures var g, h, s := GitconfigMount(homeDir), GhMount(homeDir), SshMount(homeDir);
      var ms := (if x then [g] else []) + (if y then [h] else []) + (if z then [s] else []);
      && (g in ms <==> x) && (h in ms <==> y) && (s in ms <==> z)
      && (forall k :: 0 <= k < |ms| ==> ms[k] == g || ms[k] == h || ms[k] == s)
      && (forall i, j :: 0 <= i < j < |ms| ==> OptionalRank(ms[i]) < OptionalRank(ms[j]))
  {
    var g, h, s := GitconfigMount(homeDir), GhMount(homeDir), SshMount(homeDir);
    assert OptionalRank(g) == 0 && OptionalRank(h) == 1 && OptionalRank(s) == 2;
  }

  /**
   * `worktreeMount`: when the workspace is a worktree whose main `.git`
   * directory lies outside it, a mount of that directory at the same path.
   */
  function WorktreeMount(workDir: string, host: Host): (r: Result<Option<Mount>, Error>)
    ensures r.Err? <==> host.detectWorktree(workDir).Err?
    ensures r.Err? ==> r.error == host.detectWorktree(workDir).error
    ensures r.Ok? && r.value.Some? <==>
              host.detectWorktree(workDir).Ok? && host.detectWorktree(workDir).value != ""
              && !host.isSubpath(workDir, host.detectWorktree(workDir).value)
    ensures r.Ok? && r.value.Some? ==>
              r.value.value == Mount(host.detectWorktree(workDir).value, host.detectWorktree(workDir).value, false, false)
  {
    match host.detectWorktree(workDir)
    case Err(e) => Err(e)
    case Ok(mainGitDir) =>
      if mainGitDir == "" then Ok(None)
      else if host.isSubpath(workDir, mainGitDir) then Ok(None)
      else Ok(Some(Mount(mainGitDir, mainGitDir, false, false)))
  }

  /** The mount list the worktree check adds: none or one. */
  function WorktreeExtra(workDir: string, host: Host): seq<Mount>
  {
    match WorktreeMount(workDir, host)
    case Ok(Some(m)) => [m]
    case _ => []
  }

  /**
   * `BuildMounts`: four fixed mounts (the Claude installation volume, the
   * container's Claude home and JSON file, the workspace at its own
   * path), then the optional host mounts, then the worktree mount; an
   * error of the worktree detection is returned instead of any mounts.
   */
  method BuildMounts(opts: MountOptions, host: Host) returns (r: Result<seq<Mount>, Error>)
    ensures r.Err? <==> host.detectWorktree(opts.workDir).Err?
    ensures r.Err? ==> r.error == host.detectWorktree(opts.workDir).error
    ensures r.Ok? ==> var m, extra := r.value, WorktreeExtra(opts.workDir, host);
      && |m| >= 4 + |extra|
      && m[0] == Mount(opts.volumeName, "/home/claude/.local", false, true)
      && m[1] == Mount(opts.containerClaudeHome, "/home/claude/.claude", false, false)
      && m[2] == Mount(opts.containerClaudeJSON, "/home/claude/.claude.json", false, false)
      && m[3] == Mount(opts.workDir, opts.workDir, false, false)
      && OptionalFor(opts.homeDir, host, m[4..|m| - |extra|])
      && m[|m| - |extra|..] == extra
  {
    var mounts: seq<Mount> := [];
    mounts := mounts + [Mount(opts.volumeName, "/home/claude/.local", false, true)];
    mounts := mounts + [Mount(opts.containerClaudeHome, "/home/claude/.claude", false, false)];
    mounts := mounts + [Mount(opts.containerClaudeJSON, "/home/claude/.claude.json", false, false)];
    mounts := mounts + [Mount(opts.workDir, opts.workDir, false, false)];
    var optional := OptionalMounts(opts.homeDir, host);
    mounts := mounts + optional;
    var wt := WorktreeMount(opts.workDir, host);
    if wt.Err? {
      return Err(wt.error);
    }
    if wt.value.Some? {
      mounts := mounts + [wt.value.value];
    }
    assert mounts[4..|mounts| - |WorktreeExtra(opts.workDir, host)|] == optional;
    r := Ok(mounts);
  }

  /**
   * With no gitconfig, gh or ssh settings on the host there are no
   * optional mounts, so without an outside worktree `BuildMounts` returns
   * just the four fixed ones.
   */
  lemma NoOptionalMounts(homeDir: string, host: Host, ms: seq<Mount>)
    requires !FileExists(host, GitconfigPath(homeDir))
    requires !DirExists(host, GhPath(homeDir)) && !DirExists(host, SshPath(homeDir))
    requires OptionalFor(homeDir, host, ms)
    ensures ms == []
  {
    OptionalIsFilter(homeDir, host, ms);
  }
}
