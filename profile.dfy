/**
 * Workspace profiles (internal/profile/types.go and validate.go): the
 * configuration records, the default worktree base, and the semantic
 * checks of one profile and of a whole configuration.
 */
module Profiles {
  import opened Wrappers
  import opened Text

  const EnvironmentHost := "host"
  const EnvironmentDocker := "docker"
  const LaunchShell := "shell"
  const LaunchClaude := "claude"
  const LaunchZellij := "zellij"

  /** The worktree base used when none is configured. */
  const DefaultBase := "origin/main"

  /** `WorktreeConfig`: the ref new worktrees branch from; empty means the default. */
  datatype WorktreeConfig = WorktreeConfig(base: string)

  /** `ZellijConfig`: the zellij layout. */
  datatype ZellijConfig = ZellijConfig(layout: string)

  /** `Profile`; an absent pointer of the Go record is `None`. */
  datatype Profile = Profile(worktree: Option<WorktreeConfig>, environment: string, launch: string,
                             zellij: Option<ZellijConfig>)

  /** `Config`: the name of the default profile (empty for none) and the profiles by name. */
  datatype Config = Config(defaultProfile: string, profiles: map<string, Profile>)

  /** `EffectiveBase`: the configured base ref, or "origin/main" when it is empty. */
  function EffectiveBase(w: WorktreeConfig): (r: string)
    ensures r != ""
    ensures w.base != "" ==> r == w.base
    ensures w.base == "" ==> r == DefaultBase
  {
    if w.base != "" then w.base else DefaultBase
  }

  /** Storing the effective base as the configured one changes nothing: defaulting is idempotent. */
  lemma EffectiveBaseIdempotent(w: WorktreeConfig)
    ensures EffectiveBase(WorktreeConfig(EffectiveBase(w))) == EffectiveBase(w)
  {
  }

  /** The effective base is the configured one exactly when one is configured. */
  lemma EffectiveBaseKeepsConfigured(w: WorktreeConfig)
    ensures EffectiveBase(w) == w.base <==> w.base != ""
  {
  }

  predicate KnownEnvironment(e: string)
  {
    e == EnvironmentHost || e == EnvironmentDocker
  }

  predicate KnownLaunch(m: string)
  {
    m == LaunchShell || m == LaunchClaude || m == LaunchZellij
  }

  /** The errors of `Validate`. */
  datatype ProfileError =
    | EnvironmentRequired
    | UnknownEnvironment(environment: string)
    | LaunchRequired
    | UnknownLaunchMode(launch: string)
    | ZellijWithoutZellijLaunch

  /** A Go `%q` of a string without characters that need escaping. */
  function Quote(s: string): string
  {
    "\"" + s + "\""
  }

  function ProfileErrorMessage(e: ProfileError): string
  {
    match e
    case EnvironmentRequired => "environment is required (\"host\" or \"docker\")"
    case UnknownEnvironment(v) => "unknown environment: " + Quote(v) + " (must be \"host\" or \"docker\")"
    case LaunchRequired => "launch is required (\"shell\", \"claude\", or \"zellij\")"
    case UnknownLaunchMode(v) => "unknown launch mode: " + Quote(v) + " (must be \"shell\", \"claude\", or \"zellij\")"
    case ZellijWithoutZellijLaunch => "zellij config is only valid with launch: zellij"
  }

  /**
   * `Validate`: `None` when the profile is valid, otherwise the first
   * problem in the order environment, launch mode, zellij settings.
   */
  function Validate(p: Profile): (r: Option<ProfileError>)
    ensures r.None? <==> KnownEnvironment(p.environment) && KnownLaunch(p.launch)
                         && (p.zellij.None? || p.launch == LaunchZellij)
    ensures !KnownEnvironment(p.environment) ==>
              r == Some(if p.environment == "" then EnvironmentRequired else UnknownEnvironment(p.environment))
    ensures KnownEnvironment(p.environment) && !KnownLaunch(p.launch) ==>
              r == Some(if p.launch == "" then LaunchRequired else UnknownLaunchMode(p.launch))
    ensures KnownEnvironment(p.environment) && KnownLaunch(p.launch) && p.zellij.Some? && p.launch != LaunchZellij ==>
              r == Some(ZellijWithoutZellijLaunch)
  {
    if p.environment == "" then Some(EnvironmentRequired)
    else if !KnownEnvironment(p.environment) then Some(UnknownEnvironment(p.environment))
    else if p.launch == "" then Some(LaunchRequired)
    else if !KnownLaunch(p.launch) then Some(UnknownLaunchMode(p.launch))
    else if p.zellij.Some? && p.launch != LaunchZellij then Some(ZellijWithoutZellijLaunch)
    else None
  }

  /** The worktree settings play no part in validity. */
  lemma ValidateIgnoresWorktree(p: Profile, w: Option<WorktreeConfig>)
    ensures Validate(p.(worktree := w)) == Validate(p)
  {
  }

  /** The cases of validate_test.go. */
  lemma ValidateExamples()
    ensures Validate(Profile(None, "docker", "claude", None)) == None
    ensures Validate(Profile(Some(WorktreeConfig("origin/main")), "host", "shell", None)) == None
    ensures Validate(Profile(Some(WorktreeConfig("")), "docker", "zellij", Some(ZellijConfig("default")))) == None
    ensures Validate(Profile(None, "", "claude", None)) == Some(EnvironmentRequired)
    ensures Validate(Profile(None, "docker", "", None)) == Some(LaunchRequired)
    ensures Validate(Profile(None, "kubernetes", "claude", None)) == Some(UnknownEnvironment("kubernetes"))
    ensures Validate(Profile(None, "host", "tmux", None)) == Some(UnknownLaunchMode("tmux"))
    ensures Validate(Profile(None, "docker", "claude", Some(ZellijConfig("default")))) == Some(ZellijWithoutZellijLaunch)
  {
  }

  /** The errors of `ValidateConfig`; `ValidationErrors` lists each invalid profile with its problem. */
  datatype ConfigError =
    | NoProfiles
    | DefaultNotFound(name: string)
    | ValidationErrors(errs: seq<(string, ProfileError)>)

  /** One line of the combined report: `profile %q: <problem>`. */
  function ProfileLine(name: string, e: ProfileError): string
  {
    "profile " + Quote(name) + ": " + ProfileErrorMessage(e)
  }

  function ProfileLines(errs: seq<(string, ProfileError)>): (lines: seq<string>)
    ensures |lines| == |errs|
    ensures forall k :: 0 <= k < |errs| ==> lines[k] == ProfileLine(errs[k].0, errs[k].1)
  {
    if errs == [] then [] else [ProfileLine(errs[0].0, errs[0].1)] + ProfileLines(errs[1..])
  }

  function ConfigErrorMessage(e: ConfigError): string
  {
    match e
    case NoProfiles => "no profiles defined"
    case DefaultNotFound(n) => "default profile " + Quote(n) + " not found in profiles"
    case ValidationErrors(errs) => "config validation errors:\n  " + Join(ProfileLines(errs), "\n  ")
  }

  /** The combined report starts with "config validation errors" whatever it lists. */
  lemma ValidationErrorsMessage(errs: seq<(string, ProfileError)>)
    ensures HasPrefix(ConfigErrorMessage(ValidationErrors(errs)), "config validation errors")
  {
    var m := ConfigErrorMessage(ValidationErrors(errs));
    assert m[..24] == "config validation errors";
  }

  /**
   * `errs` reports every invalid profile of `profiles` exactly once, with
   * its problem, and nothing else; the order is that of the map
   * iteration, which Go leaves unspecified.
   */
  ghost predicate ReportsInvalid(profiles: map<string, Profile>, errs: seq<(string, ProfileError)>)
  {
    && (forall k :: 0 <= k < |errs| ==> errs[k].0 in profiles && Validate(profiles[errs[k].0]) == Some(errs[k].1))
    && (forall n :: n in profiles && Validate(profiles[n]).Some? ==> exists k :: 0 <= k < |errs| && errs[k].0 == n)
    && (forall k, l :: 0 <= k < l < |errs| ==> errs[k].0 != errs[l].0)
  }

  /** The configuration is valid: some profile, an existing default if one is named, and every profile valid. */
  ghost predicate ValidConfig(cfg: Config)
  {
    && |cfg.profiles| > 0
    && (cfg.defaultProfile == "" || cfg.defaultProfile in cfg.profiles)
    && forall n :: n in cfg.profiles ==> Validate(cfg.profiles[n]).None?
  }

  /**
   * `ValidateConfig`: no profiles, then a missing default, then the
   * problems of all invalid profiles together, collected by one pass
   * over the map.
   */
  method ValidateConfig(cfg: Config) returns (r: Option<ConfigError>)
    ensures r.None? <==> ValidConfig(cfg)
    ensures |cfg.profiles| == 0 ==> r == Some(NoProfiles)
    ensures |cfg.profiles| > 0 && cfg.defaultProfile != "" && cfg.defaultProfile !in cfg.profiles ==>
              r == Some(DefaultNotFound(cfg.defaultProfile))
    ensures (r.Some? && r.value.ValidationErrors?) <==>
              |cfg.profiles| > 0 && (cfg.defaultProfile == "" || cfg.defaultProfile in cfg.profiles)
              && exists n :: n in cfg.profiles && Validate(cfg.profiles[n]).Some?
    ensures r.Some? && r.value.ValidationErrors? ==>
              |r.value.errs| > 0 && ReportsInvalid(cfg.profiles, r.value.errs)
  {
    if |cfg.profiles| == 0 {
      return Some(NoProfiles);
    }
    if cfg.defaultProfile != "" && cfg.defaultProfile !in cfg.profiles {
      return Some(DefaultNotFound(cfg.defaultProfile));
    }
    var errs: seq<(string, ProfileError)> := [];
    var remaining := cfg.profiles.Keys;
    while remaining != {}
      invariant remaining <= cfg.profiles.Keys
      invariant forall k :: 0 <= k < |errs| ==> errs[k].0 in cfg.profiles && errs[k].0 !in remaining
                                                && Validate(cfg.profiles[errs[k].0]) == Some(errs[k].1)
      invariant forall n :: n in cfg.profiles && n !in remaining && Validate(cfg.profiles[n]).Some? ==>
                              exists k :: 0 <= k < |errs| && errs[k].0 == n
      invariant forall k, l :: 0 <= k < l < |errs| ==> errs[k].0 != errs[l].0
      decreases remaining
    {
      var name :| name in remaining;
      var problem := Validate(cfg.profiles[name]);
      ghost var before := errs;
      if problem.Some? {
        errs := errs + [(name, problem.value)];
        assert errs[|errs| - 1].0 == name;
      }
      assert forall k :: 0 <= k < |before| ==> errs[k] == before[k];
      remaining := remaining - {name};
    }
    if |errs| > 0 {
      assert errs[0].0 in cfg.profiles && Validate(cfg.profiles[errs[0].0]).Some?;
      return Some(ValidationErrors(errs));
    }
    r := None;
  }

  /** The cases of validate_test.go for whole configurations. */
  method ValidateConfigExamples()
  {
    var good := Profile(None, "docker", "claude", None);
    var r := ValidateConfig(Config("test", map["test" := good]));
    assert r == None;
    r := ValidateConfig(Config("", map[]));
    assert r == Some(NoProfiles);
    r := ValidateConfig(Config("nonexistent", map["test" := good]));
    assert r == Some(DefaultNotFound("nonexistent"));
    r := ValidateConfig(Config("", map["bad" := Profile(None, "invalid", "claude", None)]));
    assert r.Some? && r.value.ValidationErrors?;
    r := ValidateConfig(Config("", map["test" := Profile(None, "host", "shell", None)]));
    assert r == None;
  }
}
