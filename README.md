# agent-workspace / claude-docker core, modelled in Dafny

The model covers the part of the `aw` command (and its older `claude-docker`
entry point) that does not depend on external programs:

- the self-update `Updater.Execute`. It fetches the latest GitHub release,
  compares versions, picks the platform's archive, downloads it, takes the
  `aw` binary out of it and swaps it in through a temporary file and an
  atomic rename;
- version parsing and comparison ("X.Y.Z" with an optional "v");
- profiles: `EffectiveBase`, `Validate` of one profile, `ValidateConfig`
  of a whole configuration;
- the stage pipeline over a shared, mutable execution context, and the
  launch stage with its launcher factory;
- `buildStages` and `describeProfile`, and the profile-driven `Run` of
  `internal/cmd/root.go`;
- the container workflow `Runner.Execute` and `Run` of
  `internal/cmd/run.go`, with the flag checks;
- the Docker mount list of `internal/mount/mount.go`;
- the random branch name of `internal/worktree/name.go`.

Collaborators are given as inputs. These are the HTTP client, the file
system, the Docker client, the settings syncer, the mount builder's host,
the dictionary, the random draws and the stages' own work. Each one is
either a class that records the calls made to it (`HttpClient`,
`FileSystem`, `Collaborators`, `ExecutionContext`) or a function-typed
parameter. An operation that works step by step is a `method` proved
against a specification function: `Updater.Plan`, `ReplaceSpec`,
`ExecuteTrace`, `RunStages`, `Candidates`, `StagesFor`, `OptionalFor`,
`ReportsInvalid`. The properties are lemmas about those functions.

Files:

- `wrappers.dfy`: Option/Result, Go errors, sequence search.
- `text.dfy`: the `strings` and `filepath` functions used.
- `fs.dfy`: files, failing operations and a change log.
- `github.dfy`, `semver.dfy`, `update.dfy`: the updater.
- `profile.dfy`, `pipeline.dfy`, `launch.dfy`, `root_cmd.dfy`: the
  profile-driven command.
- `mount.dfy`, `run_cmd.dfy`: the container command.
- `name.dfy`: worktree names.

## Model

| member | source | states |
|---|---|---|
| Update.Updater.Execute | internal/update/update.go:42-97 | the result, the requests sent and the file changes are those of `Plan`: each step short-circuits with its own wrapped error; a release not newer than the running version ends with "already latest" |
| Update.AlreadyLatestChangesNothing | internal/update/update.go:51-61 | "already latest" happens exactly when the fetched tag, without the "v", is not newer than the current version; then only the release query is sent and no file changes |
| Update.FailedUpdateKeepsFiles | internal/update/update.go:46-93 | a failed update keeps every pre-existing file unchanged; only a replacement failure changes anything; failures before the download send only the release query |
| Update.UpdatedInstallsBinary | internal/update/update.go:79-96 | after a successful update the file system is the old one with the executable's path set to the extracted binary, mode 0755 |
| Update.Download | internal/update/update.go:100-117 | one GET of the asset address; the body of a 200 response, otherwise the transport error or "unexpected status" |
| Update.DownloadFromResponse | internal/update/update.go:106-116 | the result is Ok exactly for a 200 answer, and is then its body; other statuses give `UnexpectedStatus(code)` |
| Update.ExtractBinary | internal/update/update.go:120-147 | the result is that of `Extract`: a gzip error, else the contents of the first entry whose base name is "aw", else the tar error, else "not found" |
| Update.ScanEntries | internal/update/update.go:128-144 | the scan stops at the first entry that is the binary, or at the end when there is none |
| Update.FindBinaryMeaning | internal/update/update.go:128-146 | returned bytes are exactly the contents of a binary entry with no binary entry before it; "not found" holds iff no entry is the binary and the archive ended cleanly; a tar error means no binary came before it |
| Update.ExtractSingleBinary | internal/update/update_test.go:206-217 | an archive holding only "aw" yields its bytes unchanged |
| Update.ExtractOtherFile | internal/update/update_test.go:219-237 | an archive holding only "other-file" gives "not found in archive" |
| Update.ExtractFindsNestedBinary | internal/update/update.go:137 | "dir/aw" counts as the binary, because its base name is "aw" |
| Update.ExecutablePath | internal/update/update.go:150-159 | a non-empty override is returned as it is; otherwise the resolved executable path or its error |
| Update.ReplaceBinary | internal/update/update.go:162-197 | the result, the change log and the new files are those of `ReplaceSpec`: create beside the target, write, chmod 0755, close, rename; the deferred removal runs on every failure after creation |
| Update.ReplaceCreated | internal/update/update.go:168-196 | once the temporary file exists, the result and changes are those of the schedule after the creation |
| Update.FillAndRename | internal/update/update.go:177-195 | write, chmod (closing on failure), close and rename in order; the first failure decides the error; the cleanup path is cleared only after a successful rename |
| Update.DeferredCleanup | internal/update/update.go:171-175 | the temporary file is removed unless the path was cleared; a failing removal changes nothing and is ignored |
| Update.ReplaceSucceeds | internal/update/update.go:189-196 | after success the target holds exactly the new binary with mode 0755, nothing else changed, and the temporary file is gone |
| Update.ReplaceFailsCleanly | internal/update/update.go:170-192 | a failed replacement leaves every pre-existing file, the target included, unchanged; with a working removal the file system is exactly as before |
| Update.ReplaceNeverCorruptsTarget | internal/update/update.go:161-197 | after every prefix of the changes an existing target holds its old contents or exactly the new binary, mode 0755 |
| Update.ReplaceTouchesOnlyTempAndTarget | internal/update/update.go:163-195 | every change touches only the temporary file or the target, and the target only by the rename |
| Update.TempBesideTarget | internal/update/update.go:163-164 | the temporary file lies in the target's directory |
| Update.ReplaceCreateFails | internal/update/update.go:164-167 | a failed creation is reported as "creating temp file" and changes nothing |
| GitHub.FetchLatestRelease | internal/update/github.go:33-59 | exactly one request (GET, latest-release address, GitHub JSON media type) is sent; the result is `ReleaseFromResponse` of the answer |
| GitHub.ReleaseFromResponse | internal/update/github.go:42-58 | a transport error and a non-200 status are errors carrying the cause or the status and body; Ok exactly when the status is 200 and the body decodes, and then it is the decoded release |
| GitHub.StatusGateSkipsDecoding | internal/update/github.go:48-51 | for a non-200 status the result is an error that does not depend on the decoder |
| GitHub.FindAssetURL | internal/update/github.go:62-70 | the address of the first asset named `aw_<os>_<arch>.tar.gz`; an error naming the platform iff no asset has that name |
| GitHub.FindAssetURLSkipsOthers | internal/update/github.go:64-68 | assets in front with other names do not change the result |
| GitHub.FindAssetURLExamples | internal/update/github_test.go:81-109 | darwin/arm64 is found among two assets; windows/amd64 is not |
| GitHub.AssetErrorMessageSaysNotFound | internal/update/github.go:69 | the error message says "no release asset found" |
| Semver.ParseVersion | internal/update/semver.go:10-31 | strips one "v" and splits on "."; any count other than 3 is an invalid format; Ok iff all three pieces are decimal integers, and then the components are their `Atoi` values |
| Semver.Atoi | internal/update/semver.go:17-28 | Some exactly for an optional sign followed by one or more digits; unsigned values are non-negative |
| Semver.AtoiDecimal | internal/update/semver.go:17-28 | `Atoi` reads back the decimal text of every natural number, with or without a sign |
| Semver.ParseFormat | internal/update/semver.go:10-31 | "X.Y.Z" and "vX.Y.Z" parse back to the triple |
| Semver.ParseIgnoresOnePrefix | internal/update/semver.go:11 | a version with one added "v" parses like the version itself |
| Semver.ParseStripsOnlyOnePrefix | internal/update/semver.go:11 | "vv1.2.3" is rejected |
| Semver.ParseRejectsWrongPieceCount | internal/update/semver_test.go:29-47 | "", "1", "1.2" and "1.2.3.4" are rejected |
| Semver.ParseRejectsNonNumbers | internal/update/semver_test.go:29-47 | "a.b.c" and "1.2.x" are rejected |
| Semver.ParseThreePieces | internal/update/semver.go:12-28 | three dot-free pieces parse iff each is decimal, into their `Atoi` values |
| Semver.ParseAcceptsSign | internal/update/semver.go:17-28 | "-1.0.0" parses to (-1, 0, 0), as `strconv.Atoi` accepts a sign |
| Semver.ParseExamples | internal/update/semver_test.go:5-27 | the test's version texts parse to their triples |
| Semver.IsNewer | internal/update/semver.go:34-51 | the error of the first argument that fails to parse, wrapped with which one; Ok iff both parse; then true exactly when the current triple precedes the latest lexicographically |
| Semver.PrecedesIsStrictTotalOrder | internal/update/semver.go:44-50 | the comparison is irreflexive, asymmetric, transitive and total |
| Semver.NotNewerThanItself | internal/update/semver.go:44-50 | a version is not newer than itself |
| Semver.NewerIsAsymmetric | internal/update/semver.go:44-50 | if a is newer than b then b is not newer than a |
| Semver.IsNewerOfFormats | internal/update/semver.go:34-51 | canonical texts, with or without "v", compare as their triples |
| Semver.IsNewerExamples | internal/update/semver_test.go:49-78 | the test's comparisons |
| Profiles.EffectiveBase | internal/profile/types.go:23-28 | the configured base when non-empty, else "origin/main"; never empty |
| Profiles.EffectiveBaseIdempotent | internal/profile/types.go:23-28 | defaulting twice is defaulting once |
| Profiles.EffectiveBaseKeepsConfigured | internal/profile/types_test.go:5-24 | the effective base is the configured one iff one is configured |
| Profiles.Validate | internal/profile/validate.go:9-36 | valid iff the environment is host/docker, the launch mode is shell/claude/zellij, and zellij settings only come with zellij launch; otherwise the first problem in that order, "required" for empty values |
| Profiles.ValidateIgnoresWorktree | internal/profile/validate.go:9-36 | worktree settings do not affect validity |
| Profiles.ValidateExamples | internal/profile/validate_test.go:8-96 | the test's profiles and their errors |
| Profiles.ValidateConfig | internal/profile/validate.go:39-64 | None iff the configuration is valid; no profiles, then a missing default, then a combined report listing every invalid profile exactly once with its problem |
| Profiles.ValidationErrorsMessage | internal/profile/validate.go:59-61 | the combined report starts with "config validation errors" |
| Profiles.ProfileLines | internal/profile/validate.go:54-56 | one line per reported profile, in order |
| Pipelines.Pipeline.Execute | internal/pipeline/pipeline.go:28-36 | the error and the final context are those of `RunStages` on the starting context; the contexts the stages saw are `Inputs` |
| Pipelines.RunStagesInOrder | internal/pipeline/pipeline.go:28-36 | stages run in order on the context the previous one left; success iff every stage ran and succeeded; otherwise the last stage run failed and its error is wrapped with its name |
| Pipelines.FailureNamesStage | internal/pipeline/pipeline.go:30-32 | a failure's error is some stage's error wrapped with that stage's name, and its message shows both |
| Pipelines.EmptyPipelineSucceeds | internal/pipeline/pipeline_test.go:73-80 | no stages: success, context unchanged |
| Pipelines.SecondStageFails | internal/pipeline/pipeline_test.go:42-71 | the second of three stages fails: the third never runs and the error is "stage-2: boom" |
| Pipelines.Pipeline.constructor | internal/pipeline/pipeline.go:23-25 | `Stages` returns the stages given to `New`, in order |
| Pipelines.ExecutionContext.Store | internal/pipeline/context.go:9-25 | a stage's changes to the shared context are kept |
| Launch.DefaultLauncherFactory | internal/stage/launch.go:35-46 | one launcher per known launch mode, each for its own mode; "unknown launch mode" for every other mode |
| Launch.Run | internal/stage/launch.go:21-33 | uses the stage's own factory, or the default when it has none; a factory error is returned; otherwise the launcher's own result |
| Launch.NilFactoryIsDefault | internal/stage/launch.go:22-25 | no factory behaves like the default factory |
| Launch.ValidProfileLaunches | internal/stage/launch.go:21-46 | a valid profile gets the launcher its mode names, and that launcher's result |
| Launch.UnknownModeFails | internal/stage/launch.go:43-44 | an unknown mode launches nothing and reports "unknown launch mode" |
| Launch.AsStage | internal/stage/launch.go:19-33 | as a pipeline stage it is named "launch" and returns `Run`'s error |
| Launch.LauncherErrorPropagates | internal/stage/launch_test.go:84-103 | a launcher error comes out of `Run` unchanged, and out of a pipeline as "launch: <error>" |
| RootCmd.BuildStages | internal/cmd/root.go:107-124 | a worktree stage first iff there are worktree settings; a docker stage just before the end iff the environment is docker; one launch stage, last |
| RootCmd.StagesForIs | internal/cmd/root.go:107-124 | those conditions fix the list, written out |
| RootCmd.StagesForUnique | internal/cmd/root_test.go:9-85 | one profile has one stage list |
| RootCmd.DescribeProfileForm | internal/cmd/root.go:144-152 | "worktree + " when there are worktree settings, then "<environment> + <launch>" |
| RootCmd.DescribeProfileExamples | internal/cmd/root_test.go:87-118 | the test's three descriptions |
| RootCmd.DescriptionDetermines | internal/cmd/root.go:144-152 | two valid profiles with the same description agree on worktree, environment and launch mode |
| RootCmd.RequestedName | internal/cmd/root.go:32-35 | the first argument unless it is missing or starts with "-" |
| RootCmd.Run | internal/cmd/root.go:17-104 | version flag first, then `update`, then load, validate, and select the profile (named or default; list when neither; error when unknown); then home and working directory, then the stages run on a fresh context; exit code 0 exactly on success, version, update success or the profile list |
| RootCmd.Launch | internal/cmd/root.go:73-103 | an environment error, else the profile's stages run in order on the fresh context, with the pipeline's error |
| RootCmd.HostProfileLaunches | internal/cmd/root.go:107-124 | with the launch stage root.go appends (no factory, so the default one), a valid host profile without worktree settings runs the launch stage alone; the run fails exactly when the launcher for its mode fails, with the error wrapped as "launch: …" |
| RootCmd.SelectedProfileValid | internal/cmd/root.go:67-71 | a profile selected from a valid configuration passes `Validate`, so that second check never fails |
| RunCmd.HasVersionFlag | internal/cmd/run.go:160-167 | true iff some argument is exactly "--version" or "-v" |
| RunCmd.HasWorktreeFlag | internal/cmd/run.go:170-177 | true iff some argument is exactly "--worktree" |
| RunCmd.ClaudeHome | internal/cmd/run.go:54-59 | `CLAUDE_HOME` when set and non-empty, else `~/.claude` |
| RunCmd.Runner.Execute | internal/cmd/run.go:72-128 | the error and the recorded calls are those of `ExecuteTrace`: steps in a fixed order up to the first failure, wrapped with the step's description, then the build context's cleanup |
| RunCmd.Runner.Steps | internal/cmd/run.go:85-127 | build, volume, sync, onboarding, mounts and run, stopping at the first failure |
| RunCmd.Stop | internal/cmd/run.go:86-127 | the error and the number of calls of a run whose build context exists |
| RunCmd.ExecuteOrder | internal/cmd/run.go:72-128 | every call comes strictly after the previous one; the steps form an unbroken prefix; the cleanup ends the trace iff the build context was prepared |
| RunCmd.FirstFailureStops | internal/cmd/run_test.go:170-266 | a failed check calls nothing else; a failed build creates no volume; a failed sync or mount build runs no container; success iff every step succeeds |
| RunCmd.FullFlow | internal/cmd/run_test.go:90-168 | everything succeeds: nine calls, fixed image and volume names, the container gets the mounts, working directory and arguments |
| RunCmd.NewRunnerDirs | internal/cmd/run.go:33-51 | the home directory error, then the working directory error, each wrapped; otherwise both directories |
| RunCmd.Run | internal/cmd/run.go:131-157 | version flag first, then the worktree flag, then the runner; the exit code is 0 exactly on success; nothing is called before the runner exists |
| Mounts.BuildMounts | internal/mount/mount.go:34-69 | the four fixed mounts in order, then the optional mounts, then the worktree mount if any; the worktree detection's error instead of any mounts |
| Mounts.OptionalMounts | internal/mount/mount.go:72-104 | each of gitconfig (a file), gh and ssh (directories) is present iff its host path exists in that form, in that order, once; ssh is read-only |
| Mounts.OptionalForUnique | internal/mount/mount.go:72-104 | these conditions fix the optional list |
| Mounts.OptionalIsFilter | internal/mount/mount.go:72-104 | the optional list written out |
| Mounts.NoOptionalMounts | internal/mount/mount_test.go:101-179 | no host settings: no optional mounts |
| Mounts.WorktreeMount | internal/mount/mount.go:108-126 | the detection's error; a mount of the main `.git` at its own path iff it is non-empty and not under the workspace |
| Names.GenerateName | internal/worktree/name.go:19-46 | an open error, then a read error, then "not enough words" with the count; otherwise the picked words joined by "-" |
| Names.ScanWords | internal/worktree/name.go:28-33 | the trimmed, lower-cased lines of 1 to 6 bytes, in order |
| Names.CandidatesMeaning | internal/worktree/name.go:28-33 | each word comes from a candidate line in increasing line order, is lower-case and 1 to 6 bytes, and every candidate line's word is present |
| Names.Picks | internal/worktree/name.go:41-45 | draw `d` picks word `d mod count` |
| Names.NameSplitsIntoPicks | internal/worktree/name_test.go:8-25 | without hyphenated words the name splits at "-" into the three picks, each a short lower-case dictionary word |
| Names.HyphenatedWordBreaksParts | internal/worktree/name_test.go:13-16 | a hyphenated dictionary word passes the filter, and the name then splits into more than three parts |
| Text.SplitJoin | internal/update/semver.go:12 | splitting undoes joining when no piece holds the separator |
| Text.Base | internal/update/update.go:137 | `filepath.Base`: non-empty; "/" or free of "/" |
| Text.SameDirectory | internal/update/update.go:163-164 | a name placed in a path's directory has that directory |
| Text.CleanIdempotent | internal/update/update.go:163 | `filepath.Clean`, which `filepath.Dir` applies to the directory part: a clean path stays the same when cleaned again, with or without a trailing "/", and ends in "/" only when it is "/" |
| Text.DirDropsDot | internal/update/update.go:163 | the directory of "bin/./aw" is "bin": "." elements vanish |
| Text.DirMergesSlashes | internal/update/update.go:163 | the directory of "bin//aw" is "bin": repeated slashes count as one |
| Text.DirResolvesDotDot | internal/update/update.go:163 | the directory of "a/../b" is ".": ".." removes the element before it |
| Text.DirOfRooted | internal/update/update.go:163 | the directory of "/bin/aw" is "/bin" |
| Fs.ReplayAppend | internal/update/update.go:162-197 | replaying two change logs one after the other is replaying their concatenation |
| Errors.WrapKeepsCause | internal/update/update.go:48 | a wrapped error `Is` its cause, and its message shows both the prefix and the cause |

## Left out

- HTTP transport, JSON decoding, gzip and tar framing are functions given as inputs: `decodeRelease`, `openArchive`, the client's `respond`.
- `http.NewRequest` failing on a malformed URL (update.go:101-104, and github.go:36-39 for the fixed release address) and `io.ReadAll` failing on the body (update.go:116) are not modelled; a 200 answer carries its whole body.
- All printing to stdout and stderr (progress lines, the profile list of `printAvailableProfiles`, `Error: ...` lines) is left out; outcomes are returned as values.
- `os.Executable` and `filepath.EvalSymlinks` are one input, `resolvedExecutable`.
- `os.CreateTemp` naming and retries: the random part is an input, and a name that is already taken is a creation failure rather than a retry.
- File system failures are by kind of operation (`faults`), not by path or timing; a failing `Close` after a failed write or chmod is ignored, as in the source.
- `FileSystem.Write`: a failing write writes nothing, while Go's `(*os.File).Write` may write part of the data before it fails (update.go:177). The difference shows only when the removal of the temporary file fails too: Go then leaves a partly written temporary file, and the model an empty one.
- Go's `%q` is modelled as plain quoting, without escapes.
- `strings.ToLower` is modelled on ASCII letters only.
- `filepath.Join` is modelled without `Clean`.
- Go map iteration order in `ValidateConfig` is unspecified; `ReportsInvalid` fixes only the set of reported profiles and their problems, not their order.
- `rand.Intn(n)` is modelled as a draw reduced modulo `n`, with the draws as input.
- `profile.Load`, `update.Run` and `worktree.Run` are inputs: their outcome is a parameter of `Run`.
- `os.UserHomeDir`, `os.Getwd`, `os.Getenv("CLAUDE_HOME")` and `os.Stat` are inputs.
- `DetectWorktree` and `IsSubpath` are functions of the mount builder's host.
- `container.BuildRunConfig` is left out: the container run is recorded with its `RunOptions`.
- The Docker, git and zellij shell-outs and the config syncer's work are collaborators with fixed answers.
- `RootCmd.Run` takes every stage, the launch stage included, from its parameter `impl`; the worktree and docker stages are collaborators. root.go:121 always appends a `LaunchStage` without a factory: `RootCmd.DefaultLaunch` states that choice of `impl`, and `RootCmd.HostProfileLaunches` proves what a run under it does for a one-stage profile.
- Launch.AsStage: a launcher cannot change the execution context, while Go hands it the shared `*ExecutionContext` (launch.go:32). No change there can be observed: launch is the last stage (root.go:121), and `Run` drops the context after the pipeline.
- `hasVersionFlag` in root.go (lines 155-162) is the same code as in run.go and is modelled once, by `RunCmd.HasVersionFlag`.
- The second `Validate` in root.go (lines 67-71) can never fail after `ValidateConfig`. `RootCmd.Run` has no outcome for it, and `RootCmd.SelectedProfileValid` proves it is unreachable.
- `Text.Base` follows the code of Go's `filepath.Base` (trailing slashes dropped, "." for an empty path), not just "the text after the last slash".
- Go integers are 64 bits; version components are unbounded here, and `strconv.Atoi`'s range error is not modelled.
- Example methods without postconditions only check test cases: `Profiles.ValidateConfigExamples`, `RunCmd.FlagExamples`, `RootCmd.BuildStagesExamples`, `RootCmd.VersionBeforeUpdate`, `RunCmd.VersionBeforeWorktree`.
- Names.GenerateName: the name test expects every name to split into three parts. A dictionary word holding a hyphen passes the length filter and breaks that expectation (`Names.HyphenatedWordBreaksParts`). The model follows the code, which does not exclude such words.
