/**
 * The self-update workflow (internal/update/update.go): fetch the latest
 * release, compare versions, pick the platform's archive, download it,
 * take the binary out of it and put it in place of the running one
 * through a temporary file and a rename.
 */
module Update {
  import opened Wrappers
  import opened Errors
  import opened Seqs
  import opened Text
  import opened Semver
  import opened GitHub
  import opened Fs

  const BinaryName := "aw"

  /** The fixed part of the temporary file's name; `os.CreateTemp` adds a random part. */
  const TempPrefix := BinaryName + ".update."

  // ---------------------------------------------------------------------
  // extractBinary

  /** One decoded tar entry: its header name and the outcome of reading its contents. */
  datatype TarEntry = TarEntry(name: string, body: Result<seq<byte>, string>)

  /**
   * The decoded archive: the entries the tar reader yields, then how the
   * reader stops: `Ok` at the end of the archive, `Err` on a bad header.
   */
  datatype TarStream = TarStream(entries: seq<TarEntry>, end: Result<(), string>)

  /** The errors of `extractBinary`. */
  datatype ExtractError =
    | OpeningGzip(cause: string)      // opening gzip: %w
    | ReadingTar(cause: string)       // reading tar: %w
    | ReadingBinary(cause: string)    // reading binary from archive: %w
    | BinaryNotFound                  // binary "aw" not found in archive

  function ExtractErrorMessage(e: ExtractError): string
  {
    match e
    case OpeningGzip(c) => "opening gzip: " + c
    case ReadingTar(c) => "reading tar: " + c
    case ReadingBinary(c) => "reading binary from archive: " + c
    case BinaryNotFound => "binary \"" + BinaryName + "\" not found in archive"
  }

  /** The entry is the binary: the last element of its name is "aw". */
  predicate IsBinary(entry: TarEntry)
  {
    Base(entry.name) == BinaryName
  }

  /**
   * What `extractBinary` returns for a decoded archive: the contents of
   * the first entry that is the binary; when there is none, the tar
   * reader's error, or "not found".
   */
  function FindBinary(s: TarStream): Result<seq<byte>, ExtractError>
  {
    match FirstWhere(s.entries, IsBinary)
    case Some(i) =>
      (match s.entries[i].body
       case Ok(data) => Ok(data)
       case Err(e) => Err(ReadingBinary(e)))
    case None =>
      if s.end.Ok? then Err(BinaryNotFound) else Err(ReadingTar(s.end.error))
  }

  /**
   * The bytes `FindBinary` returns are, unchanged, the contents of an
   * entry that is the binary with no such entry before it; "not found"
   * means that no entry is the binary and the archive ended cleanly; a
   * tar error is reported only when no entry before it is the binary.
   */
  lemma FindBinaryMeaning(s: TarStream)
    ensures var r := FindBinary(s);
      r.Ok? ==> exists i :: 0 <= i < |s.entries| && IsBinary(s.entries[i])
                  && s.entries[i].body == Ok(r.value)
                  && forall j :: 0 <= j < i ==> !IsBinary(s.entries[j])
    ensures (FindBinary(s) == Err(BinaryNotFound)) <==> s.end.Ok? && forall j :: 0 <= j < |s.entries| ==> !IsBinary(s.entries[j])
    ensures FindBinary(s).Err? && FindBinary(s).error.ReadingTar? ==>
              s.end.Err? && forall j :: 0 <= j < |s.entries| ==> !IsBinary(s.entries[j])
  {
    var first := FirstWhere(s.entries, IsBinary);
    if first.Some? {
      var i := first.value;
      assert IsBinary(s.entries[i]) && forall j :: 0 <= j < i ==> !IsBinary(s.entries[j]);
    }
  }

  /** `extractBinary` as a value: open the gzip stream with `openArchive`, then search it. */
  function Extract(archive: seq<byte>, openArchive: seq<byte> -> Result<TarStream, string>): Result<seq<byte>, ExtractError>
  {
    match openArchive(archive)
    case Err(e) => Err(OpeningGzip(e))
    case Ok(s) => FindBinary(s)
  }

  /** The loop of `extractBinary`: reads entries one at a time and stops at the first one that is the binary. */
  method ScanEntries(entries: seq<TarEntry>) returns (i: nat)
    ensures i <= |entries|
    ensures FirstWhere(entries, IsBinary) == if i < |entries| then Some(i) else None
  {
    i := 0;
    while i < |entries| && !IsBinary(entries[i])
      invariant 0 <= i <= |entries|
      invariant forall j :: 0 <= j < i ==> !IsBinary(entries[j])
    {
      i := i + 1;
    }
    if i < |entries| {
      FirstWhereAt(entries, IsBinary, i);
    }
  }

  /** `extractBinary`: the contents of the entry the scan stops at, or the reason there is none. */
  method ExtractBinary(archive: seq<byte>, openArchive: seq<byte> -> Result<TarStream, string>)
    returns (r: Result<seq<byte>, ExtractError>)
    ensures r == Extract(archive, openArchive)
  {
    var decoded := openArchive(archive);
    if decoded.Err? {
      return Err(OpeningGzip(decoded.error));
    }
    var s := decoded.value;
    var i := ScanEntries(s.entries);
    if i < |s.entries| {
      var body := s.entries[i].body;
      if body.Err? {
        return Err(ReadingBinary(body.error));
      }
      return Ok(body.value);
    }
    if s.end.Err? {
      return Err(ReadingTar(s.end.error));
    }
    r := Err(BinaryNotFound);
  }

  /** The first archive of update_test.go: a single "aw" entry yields its bytes unchanged. */
  lemma ExtractSingleBinary(content: seq<byte>)
    ensures FindBinary(TarStream([TarEntry("aw", Ok(content))], Ok(()))) == Ok(content)
  {
    var entry := TarEntry("aw", Ok(content));
    BaseOfName(entry.name);
    assert IsBinary([entry][0]);
    FirstWhereAt([entry], IsBinary, 0);
  }

  /** The second archive of update_test.go: a single "other-file" entry is not found, and the message says so. */
  lemma ExtractOtherFile(other: seq<byte>)
    ensures FindBinary(TarStream([TarEntry("other-file", Ok(other))], Ok(()))) == Err(BinaryNotFound)
    ensures Contains(ExtractErrorMessage(BinaryNotFound), "not found in archive")
  {
    var entry := TarEntry("other-file", Ok(other));
    assert '/' !in entry.name by {
      forall i | 0 <= i < |entry.name|
        ensures entry.name[i] != '/'
      {
      }
    }
    BaseOfName(entry.name);
    assert !IsBinary([entry][0]);
    NotFoundMessage();
  }

  lemma NotFoundMessage()
    ensures Contains(ExtractErrorMessage(BinaryNotFound), "not found in archive")
  {
    var m := ExtractErrorMessage(BinaryNotFound);
    assert m[12..32] == "not found in archive";
  }

  /** A binary inside a directory of the archive counts too: `filepath.Base` of "dir/aw" is "aw". */
  lemma ExtractFindsNestedBinary(dir: string, content: seq<byte>)
    ensures FindBinary(TarStream([TarEntry(dir + "/aw", Ok(content))], Ok(()))) == Ok(content)
  {
    var entry := TarEntry(dir + "/aw", Ok(content));
    BaseOfNested(dir, "aw");
    assert dir + "/aw" == dir + "/" + "aw";
    assert IsBinary([entry][0]);
    FirstWhereAt([entry], IsBinary, 0);
  }

  // ---------------------------------------------------------------------
  // download and executablePath

  /** The request `download` sends for an archive address. */
  function DownloadRequest(url: string): Request
  {
    Request("GET", url, None)
  }

  /** The errors of `download`. */
  datatype DownloadError =
    | TransportError(cause: string)   // the client's error, unwrapped
    | UnexpectedStatus(status: int)   // unexpected status %d

  /** What `download` makes of the client's answer: the body of a 200 response, an error otherwise. */
  function DownloadFromResponse(answer: Result<Response, string>): (r: Result<seq<byte>, DownloadError>)
    ensures r.Ok? <==> answer.Ok? && answer.value.statusCode == 200
    ensures r.Ok? ==> r.value == answer.value.body
    ensures answer.Ok? && answer.value.statusCode != 200 ==> r == Err(UnexpectedStatus(answer.value.statusCode))
  {
    match answer
    case Err(e) => Err(TransportError(e))
    case Ok(resp) => if resp.statusCode != 200 then Err(UnexpectedStatus(resp.statusCode)) else Ok(resp.body)
  }

  /** `download`: one GET of `url`, answered by the client. */
  method Download(client: HttpClient, url: string) returns (r: Result<seq<byte>, DownloadError>)
    modifies client
    ensures client.sent == old(client.sent) + [DownloadRequest(url)]
    ensures r == DownloadFromResponse(client.respond(DownloadRequest(url)))
  {
    var answer := client.Do(DownloadRequest(url));
    if answer.Err? {
      return Err(TransportError(answer.error));
    }
    if answer.value.statusCode != 200 {
      return Err(UnexpectedStatus(answer.value.statusCode));
    }
    r := Ok(answer.value.body);
  }

  /**
   * `executablePath`: a non-empty override is the answer as it stands;
   * otherwise `resolved`, the outcome of locating the running executable
   * and resolving its symbolic links.
   */
  function ExecutablePath(execPath: string, resolved: Result<string, string>): (r: Result<string, string>)
    ensures execPath != "" ==> r == Ok(execPath)
    ensures execPath == "" ==> r == resolved
  {
    if execPath != "" then Ok(execPath) else resolved
  }

  // ---------------------------------------------------------------------
  // replaceBinary

  /** The errors of `replaceBinary`, each wrapping the file system's error. */
  datatype ReplaceError =
    | CreatingTemp(cause: FsError)          // creating temp file: %w
    | WritingTemp(cause: FsError)           // writing temp file: %w
    | SettingPermissions(cause: FsError)    // setting permissions: %w
    | ClosingTemp(cause: FsError)           // closing temp file: %w
    | Renaming(cause: FsError)              // renaming: %w

  /** The temporary file: inside the target's directory, named by the prefix and the random part. */
  function TempPath(target: string, random: string): string
  {
    JoinPath(Dir(target), TempPrefix + random)
  }

  /** What a replacement returns and the changes it makes, in order. */
  datatype ReplaceOutcome = ReplaceOutcome(result: Result<(), ReplaceError>, events: seq<Event>)

  /** The changes that fill the temporary file: create it, write the binary, make it executable. */
  function Filling(tmp: string, newBinary: seq<byte>): seq<Event>
  {
    [Created(tmp), Wrote(tmp, newBinary), Chmodded(tmp, ModeExecutable)]
  }

  /**
   * `replaceBinary` on a file system holding `files` whose operations of
   * the kinds in `faults` fail: the first failing step decides the error;
   * on every failure after the temporary file exists, the deferred
   * cleanup removes it (a failing removal is ignored); a successful
   * rename disarms the cleanup.
   */
  function ReplaceSpec(files: map<string, File>, faults: set<Op>, target: string, newBinary: seq<byte>, random: string)
    : ReplaceOutcome
  {
    ReplaceVia(files, faults, TempPath(target, random), target, newBinary)
  }

  /** `ReplaceSpec` once the temporary file's path `tmp` is fixed. */
  function ReplaceVia(files: map<string, File>, faults: set<Op>, tmp: string, target: string, newBinary: seq<byte>)
    : ReplaceOutcome
  {
    var filling := Filling(tmp, newBinary);
    var cleanup := if RemoveOp in faults then [] else [Removed(tmp)];
    if CreateOp in faults || tmp in files then ReplaceOutcome(Err(CreatingTemp(Failed(CreateOp, tmp))), [])
    else if WriteOp in faults then ReplaceOutcome(Err(WritingTemp(Failed(WriteOp, tmp))), filling[..1] + cleanup)
    else if ChmodOp in faults then ReplaceOutcome(Err(SettingPermissions(Failed(ChmodOp, tmp))), filling[..2] + cleanup)
    else if CloseOp in faults then ReplaceOutcome(Err(ClosingTemp(Failed(CloseOp, tmp))), filling + cleanup)
    else if RenameOp in faults then ReplaceOutcome(Err(Renaming(Failed(RenameOp, tmp))), filling + cleanup)
    else ReplaceOutcome(Ok(()), filling + [Renamed(tmp, target)])
  }

  /** `a` and `b` agree on every path other than `tmp`. */
  ghost predicate SameExcept(a: map<string, File>, b: map<string, File>, tmp: string)
  {
    (forall p :: p != tmp ==> (p in a <==> p in b))
    && (forall p :: p != tmp && p in a ==> a[p] == b[p])
  }

  lemma ReplayOne(files: map<string, File>, e: Event)
    ensures Replay(files, [e]) == Apply(files, e)
  {
    assert [e][..0] == [];
  }

  lemma ReplayPrepend(files: map<string, File>, e: Event, rest: seq<Event>)
    ensures Replay(files, [e] + rest) == Replay(Apply(files, e), rest)
  {
    ReplayOne(files, e);
    ReplayAppend(files, [e], rest);
  }

  lemma ReplayStep(files: map<string, File>, events: seq<Event>, e: Event)
    ensures Replay(files, events + [e]) == Apply(Replay(files, events), e)
  {
    assert (events + [e])[..|events|] == events;
  }

  /** Filling the temporary file step by step changes only the temporary file. */
  lemma FillingStates(files: map<string, File>, tmp: string, newBinary: seq<byte>, k: nat)
    requires tmp !in files && k <= 3
    ensures SameExcept(Replay(files, Filling(tmp, newBinary)[..k]), files, tmp)
    ensures k >= 1 ==> tmp in Replay(files, Filling(tmp, newBinary)[..k])
    ensures k == 3 ==> Replay(files, Filling(tmp, newBinary)[..k]) == files[tmp := File(newBinary, ModeExecutable)]
  {
    var f := Filling(tmp, newBinary);
    assert f[..0] == [];
    assert f[..1] == [] + [Created(tmp)];
    assert f[..2] == f[..1] + [Wrote(tmp, newBinary)];
    assert f[..3] == f[..2] + [Chmodded(tmp, ModeExecutable)];
    ReplayStep(files, [], Created(tmp));
    var s1 := files[tmp := File([], ModeTempFile)];
    assert Replay(files, f[..1]) == s1;
    ReplayStep(files, f[..1], Wrote(tmp, newBinary));
    assert [] + newBinary == newBinary;
    var s2 := files[tmp := File(newBinary, ModeTempFile)];
    assert Replay(files, f[..2]) == s2;
    ReplayStep(files, f[..2], Chmodded(tmp, ModeExecutable));
    assert Replay(files, f[..3]) == files[tmp := File(newBinary, ModeExecutable)];
  }

  /**
   * The changes of a replacement once its temporary file `tmp` is
   * created: the creation, the later steps, and the cleanup when those
   * fail and the removal succeeds.
   */
  function Schedule(faults: set<Op>, tmp: string, target: string, newBinary: seq<byte>): seq<Event>
  {
    var body := AfterCreate(faults, tmp, target, newBinary);
    [Created(tmp)] + body.events + (if body.result.Ok? || RemoveOp in faults then [] else [Removed(tmp)])
  }

  /** The schedule is the first `n` changes of the filling, then the rename on success or the cleanup on failure. */
  lemma ScheduleShape(faults: set<Op>, tmp: string, target: string, newBinary: seq<byte>) returns (n: nat, tail: seq<Event>)
    ensures 1 <= n <= 3
    ensures Schedule(faults, tmp, target, newBinary) == Filling(tmp, newBinary)[..n] + tail
    ensures AfterCreate(faults, tmp, target, newBinary).result.Ok? ==> n == 3 && tail == [Renamed(tmp, target)]
    ensures AfterCreate(faults, tmp, target, newBinary).result.Err? ==>
              tail == (if RemoveOp in faults then [] else [Removed(tmp)])
  {
    var f := Filling(tmp, newBinary);
    var body := AfterCreate(faults, tmp, target, newBinary);
    var cleanup := if body.result.Ok? || RemoveOp in faults then [] else [Removed(tmp)];
    assert f[..3] == f == [Created(tmp)] + f[1..];
    if WriteOp in faults {
      n := 1;
      assert f[..1] == [Created(tmp)] + [];
    } else if ChmodOp in faults {
      n := 2;
      assert f[..2] == [Created(tmp)] + [Wrote(tmp, newBinary)];
    } else {
      n := 3;
    }
    tail := if body.result.Ok? then [Renamed(tmp, target)] else cleanup;
  }

  /** After a successful replacement the target holds exactly the new binary with mode 0755, and nothing else changed: the temporary file is gone. */
  lemma ReplaceSucceeds(files: map<string, File>, faults: set<Op>, target: string, newBinary: seq<byte>, random: string)
    requires ReplaceSpec(files, faults, target, newBinary, random).result.Ok?
    ensures Replay(files, ReplaceSpec(files, faults, target, newBinary, random).events)
            == files[target := File(newBinary, ModeExecutable)]
    ensures TempPath(target, random) != target ==>
              TempPath(target, random) !in Replay(files, ReplaceSpec(files, faults, target, newBinary, random).events)
  {
    var tmp := TempPath(target, random);
    ReplaceSpecSplit(files, faults, target, newBinary, random);
    ScheduleSucceeds(files, faults, tmp, target, newBinary);
  }

  /** A successful schedule leaves the target holding the new binary and no temporary file. */
  lemma ScheduleSucceeds(files: map<string, File>, faults: set<Op>, tmp: string, target: string, newBinary: seq<byte>)
    requires tmp !in files && AfterCreate(faults, tmp, target, newBinary).result.Ok?
    ensures Replay(files, Schedule(faults, tmp, target, newBinary)) == files[target := File(newBinary, ModeExecutable)]
    ensures tmp != target ==> tmp !in Replay(files, Schedule(faults, tmp, target, newBinary))
  {
    var f := Filling(tmp, newBinary);
    var n, tail := ScheduleShape(faults, tmp, target, newBinary);
    assert f[..3] == f;
    FillingStates(files, tmp, newBinary, 3);
    ReplayStep(files, f, Renamed(tmp, target));
    var before := files[tmp := File(newBinary, ModeExecutable)];
    assert (before - {tmp})[target := File(newBinary, ModeExecutable)] == files[target := File(newBinary, ModeExecutable)];
  }

  /**
   * A failed replacement changes no file that existed before, so the
   * target keeps its old contents; unless the cleanup itself fails it
   * leaves the file system exactly as it was.
   */
  lemma ReplaceFailsCleanly(files: map<string, File>, faults: set<Op>, target: string, newBinary: seq<byte>, random: string)
    requires ReplaceSpec(files, faults, target, newBinary, random).result.Err?
    ensures var after := Replay(files, ReplaceSpec(files, faults, target, newBinary, random).events);
      forall p :: p in files ==> p in after && after[p] == files[p]
    ensures RemoveOp !in faults ==> Replay(files, ReplaceSpec(files, faults, target, newBinary, random).events) == files
  {
    var tmp := TempPath(target, random);
    if !(CreateOp in faults || tmp in files) {
      ReplaceSpecSplit(files, faults, target, newBinary, random);
      ScheduleFailsCleanly(files, faults, tmp, target, newBinary);
    }
  }

  /** A failing schedule changes no file that existed before, and with a working removal it leaves the files as they were. */
  lemma ScheduleFailsCleanly(files: map<string, File>, faults: set<Op>, tmp: string, target: string, newBinary: seq<byte>)
    requires tmp !in files && AfterCreate(faults, tmp, target, newBinary).result.Err?
    ensures var after := Replay(files, Schedule(faults, tmp, target, newBinary));
      forall p :: p in files ==> p in after && after[p] == files[p]
    ensures RemoveOp !in faults ==> Replay(files, Schedule(faults, tmp, target, newBinary)) == files
  {
    var events := Schedule(faults, tmp, target, newBinary);
    var n, tail := ScheduleShape(faults, tmp, target, newBinary);
    var prefix := Filling(tmp, newBinary)[..n];
    FillingStates(files, tmp, newBinary, n);
    if RemoveOp in faults {
      assert events == prefix;
    } else {
      assert events == prefix + [Removed(tmp)];
      ReplayStep(files, prefix, Removed(tmp));
      RemoveRestores(files, Replay(files, prefix), tmp);
    }
  }

  /** Removing `tmp` from a state that differs from `files` only at `tmp`, which `files` lacks, gives back `files`. */
  lemma RemoveRestores(files: map<string, File>, mid: map<string, File>, tmp: string)
    requires tmp !in files && SameExcept(mid, files, tmp)
    ensures mid - {tmp} == files
  {
  }

  /** The paths an event changes. */
  function Paths(e: Event): set<string>
  {
    match e
    case Created(q) => {q}
    case Wrote(q, _) => {q}
    case Chmodded(q, _) => {q}
    case Renamed(a, b) => {a, b}
    case Removed(q) => {q}
  }

  /** The temporary file lies in the target's directory, as `filepath.Dir` sees it. */
  lemma TempBesideTarget(target: string, random: string)
    requires '/' !in random
    ensures Dir(TempPath(target, random)) == Dir(target)
  {
    assert '/' !in TempPrefix + random by {
      assert TempPrefix == "aw.update.";
    }
    SameDirectory(target, TempPrefix + random);
  }

  /**
   * Every change is to the temporary file or the target, and the only
   * change that touches the target is the rename.
   */
  lemma ReplaceTouchesOnlyTempAndTarget(files: map<string, File>, faults: set<Op>, target: string, newBinary: seq<byte>,
                                        random: string)
    ensures var events := ReplaceSpec(files, faults, target, newBinary, random).events;
      forall i :: 0 <= i < |events| ==> Paths(events[i]) <= {TempPath(target, random), target}
    ensures var events := ReplaceSpec(files, faults, target, newBinary, random).events;
      TempPath(target, random) != target ==>
        forall i :: 0 <= i < |events| && target in Paths(events[i]) ==> events[i] == Renamed(TempPath(target, random), target)
  {
    var tmp := TempPath(target, random);
    var events := ReplaceSpec(files, faults, target, newBinary, random).events;
    if !(CreateOp in faults || tmp in files) {
      ReplaceSpecSplit(files, faults, target, newBinary, random);
      ScheduleTouchesOnly(faults, tmp, target, newBinary);
      forall i | 0 <= i < |events| ensures TouchesOnly(events[i], tmp, target) {
        assert events[i] in events;
      }
    }
  }

  /** Each change of a replacement whose temporary file is `tmp`, from its creation to the cleanup, touches only `tmp` and `target`. */
  lemma ScheduleTouchesOnly(faults: set<Op>, tmp: string, target: string, newBinary: seq<byte>)
    ensures forall e :: e in Schedule(faults, tmp, target, newBinary) ==> TouchesOnly(e, tmp, target)
  {
    assert forall e :: e in Filling(tmp, newBinary) ==> TouchesOnly(e, tmp, target);
  }

  /** `e` changes only `tmp` and `target`, and changes `target` only by renaming `tmp` onto it. */
  ghost predicate TouchesOnly(e: Event, tmp: string, target: string)
  {
    Paths(e) <= {tmp, target} && (tmp != target && target in Paths(e) ==> e == Renamed(tmp, target))
  }

  /**
   * The replacement is safe against interruption: when the target exists,
   * after every prefix of the changes it still exists and holds either
   * its old contents or exactly the new binary with mode 0755.
   */
  lemma ReplaceNeverCorruptsTarget(files: map<string, File>, faults: set<Op>, target: string, newBinary: seq<byte>,
                                   random: string, k: nat)
    requires target in files
    requires k <= |ReplaceSpec(files, faults, target, newBinary, random).events|
    ensures var mid := Replay(files, ReplaceSpec(files, faults, target, newBinary, random).events[..k]);
      target in mid && (mid[target] == files[target] || mid[target] == File(newBinary, ModeExecutable))
  {
    var tmp := TempPath(target, random);
    var out := ReplaceSpec(files, faults, target, newBinary, random);
    if CreateOp in faults || tmp in files {
      assert out.events[..k] == [];
    } else {
      ReplaceSpecSplit(files, faults, target, newBinary, random);
      ScheduleKeepsTarget(files, faults, tmp, target, newBinary, k);
    }
  }

  /** After every prefix of a schedule, an existing target holds its old contents or exactly the new binary with mode 0755. */
  lemma ScheduleKeepsTarget(files: map<string, File>, faults: set<Op>, tmp: string, target: string, newBinary: seq<byte>,
                            k: nat)
    requires tmp !in files && target in files
    requires k <= |Schedule(faults, tmp, target, newBinary)|
    ensures var mid := Replay(files, Schedule(faults, tmp, target, newBinary)[..k]);
      target in mid && (mid[target] == files[target] || mid[target] == File(newBinary, ModeExecutable))
  {
    var events := Schedule(faults, tmp, target, newBinary);
    var n, tail := ScheduleShape(faults, tmp, target, newBinary);
    var prefix := Filling(tmp, newBinary)[..n];
    if k <= n {
      assert events[..k] == Filling(tmp, newBinary)[..k];
      FillingStates(files, tmp, newBinary, k);
    } else {
      assert k == n + 1 && |tail| == 1;
      assert events[..k] == prefix + [tail[0]];
      FillingStates(files, tmp, newBinary, n);
      ReplayStep(files, prefix, tail[0]);
      if AfterCreate(faults, tmp, target, newBinary).result.Ok? {
        assert prefix == Filling(tmp, newBinary);
      }
    }
  }

  /**
   * The steps of `replaceBinary` once the temporary file `tmp` exists, up
   * to the deferred cleanup: the first failing step of write, chmod, close
   * and rename decides the error, and the events are the changes made.
   */
  function AfterCreate(faults: set<Op>, tmp: string, target: string, newBinary: seq<byte>): ReplaceOutcome
  {
    if WriteOp in faults then ReplaceOutcome(Err(WritingTemp(Failed(WriteOp, tmp))), [])
    else if ChmodOp in faults then ReplaceOutcome(Err(SettingPermissions(Failed(ChmodOp, tmp))), [Wrote(tmp, newBinary)])
    else if CloseOp in faults then ReplaceOutcome(Err(ClosingTemp(Failed(CloseOp, tmp))), Filling(tmp, newBinary)[1..])
    else if RenameOp in faults then ReplaceOutcome(Err(Renaming(Failed(RenameOp, tmp))), Filling(tmp, newBinary)[1..])
    else ReplaceOutcome(Ok(()), Filling(tmp, newBinary)[1..] + [Renamed(tmp, target)])
  }

  /** When the temporary file cannot be created, the replacement fails at once and changes nothing. */
  lemma ReplaceCreateFails(files: map<string, File>, faults: set<Op>, target: string, newBinary: seq<byte>, random: string)
    requires CreateOp in faults || TempPath(target, random) in files
    ensures ReplaceSpec(files, faults, target, newBinary, random)
            == ReplaceOutcome(Err(CreatingTemp(Failed(CreateOp, TempPath(target, random)))), [])
  {
  }

  /** The whole replacement is the creation, the later steps, and the cleanup when they fail. */
  lemma ReplaceSpecSplit(files: map<string, File>, faults: set<Op>, target: string, newBinary: seq<byte>, random: string)
    requires CreateOp !in faults && TempPath(target, random) !in files
    ensures var tmp := TempPath(target, random);
      ReplaceSpec(files, faults, target, newBinary, random)
        == ReplaceOutcome(AfterCreate(faults, tmp, target, newBinary).result, Schedule(faults, tmp, target, newBinary))
  {
    ReplaceViaSplit(files, faults, TempPath(target, random), target, newBinary);
  }

  /** The same split for a fixed temporary path. */
  lemma ReplaceViaSplit(files: map<string, File>, faults: set<Op>, tmp: string, target: string, newBinary: seq<byte>)
    requires CreateOp !in faults && tmp !in files
    ensures ReplaceVia(files, faults, tmp, target, newBinary)
            == ReplaceOutcome(AfterCreate(faults, tmp, target, newBinary).result, Schedule(faults, tmp, target, newBinary))
  {
    var f := Filling(tmp, newBinary);
    assert f[..1] == [Created(tmp)] + [];
    assert f[..2] == [Created(tmp)] + [Wrote(tmp, newBinary)];
    assert f == [Created(tmp)] + f[1..];
  }

  /**
   * `replaceBinary`: create the temporary file next to the target, run
   * the later steps, then the deferred removal of the temporary file,
   * which the later steps disarm once the rename succeeds.
   */
  method ReplaceBinary(fs: FileSystem, target: string, newBinary: seq<byte>, random: string)
    returns (r: Result<(), ReplaceError>)
    modifies fs
    ensures var out := ReplaceSpec(old(fs.files), fs.faults, target, newBinary, random);
      r == out.result && fs.log == old(fs.log) + out.events && fs.files == Replay(old(fs.files), out.events)
  {
    ghost var start := fs.files;
    var dir := Dir(target);
    var created := fs.CreateTemp(dir, TempPrefix, random);
    if created.Err? {
      ReplaceCreateFails(start, fs.faults, target, newBinary, random);
      return Err(CreatingTemp(created.error));
    }
    ghost var tmp := created.value;
    r := ReplaceCreated(fs, created.value, target, newBinary);
    ghost var rest := Schedule(fs.faults, tmp, target, newBinary)[1..];
    ScheduleStartsWithCreate(fs.faults, tmp, target, newBinary);
    ReplayPrepend(start, Created(tmp), rest);
    AppendAssoc(old(fs.log), [Created(tmp)], rest);
    ReplaceSpecSplit(start, fs.faults, target, newBinary, random);
  }

  /** A schedule starts with the creation of the temporary file. */
  lemma ScheduleStartsWithCreate(faults: set<Op>, tmp: string, target: string, newBinary: seq<byte>)
    ensures var sched := Schedule(faults, tmp, target, newBinary);
      |sched| >= 1 && sched == [Created(tmp)] + sched[1..]
  {
  }

  /**
   * `replaceBinary` once the temporary file `tmp` exists: the later
   * steps, then the deferred cleanup; the changes made are those of the
   * schedule after the creation.
   */
  method ReplaceCreated(fs: FileSystem, tmp: string, target: string, newBinary: seq<byte>)
    returns (r: Result<(), ReplaceError>)
    modifies fs
    requires tmp != "" && tmp in fs.files
    ensures r == AfterCreate(fs.faults, tmp, target, newBinary).result
    ensures var rest := Schedule(fs.faults, tmp, target, newBinary)[1..];
      fs.log == old(fs.log) + rest && fs.files == Replay(old(fs.files), rest)
  {
    ghost var start, startLog := fs.files, fs.log;
    var tmpPath;
    r, tmpPath := FillAndRename(fs, tmp, target, newBinary);
    ghost var body := AfterCreate(fs.faults, tmp, target, newBinary);
    DeferredCleanup(fs, tmpPath, start, startLog, body.events);
    ghost var cleanup := if r.Ok? || RemoveOp in fs.faults then [] else [Removed(tmp)];
    AppendAssoc([Created(tmp)], body.events, cleanup);
  }

  /**
   * The body of `replaceBinary` after the creation of `tmpPath`: write,
   * chmod (closing the file on either failure), close and rename; the
   * path returned is the one the deferred cleanup will remove, cleared
   * once the rename succeeds.
   */
  method FillAndRename(fs: FileSystem, tmpPath: string, target: string, newBinary: seq<byte>)
    returns (r: Result<(), ReplaceError>, armed: string)
    modifies fs
    requires tmpPath != "" && tmpPath in fs.files
    ensures var body := AfterCreate(fs.faults, tmpPath, target, newBinary);
      r == body.result && fs.log == old(fs.log) + body.events && fs.files == Replay(old(fs.files), body.events)
    ensures armed == (if r.Ok? then "" else tmpPath)
    ensures armed != "" ==> armed in fs.files
  {
    ghost var start := fs.files;
    armed := tmpPath;
    var written := fs.Write(tmpPath, newBinary);
    if written.Err? {
      var _ := fs.Close(tmpPath);
      return Err(WritingTemp(written.error)), armed;
    }
    ReplayOne(start, Wrote(tmpPath, newBinary));
    var chmodded := fs.Chmod(tmpPath, ModeExecutable);
    if chmodded.Err? {
      var _ := fs.Close(tmpPath);
      return Err(SettingPermissions(chmodded.error)), armed;
    }
    ghost var done := [Wrote(tmpPath, newBinary), Chmodded(tmpPath, ModeExecutable)];
    assert done == [Wrote(tmpPath, newBinary)] + [Chmodded(tmpPath, ModeExecutable)];
    ReplayStep(start, [Wrote(tmpPath, newBinary)], Chmodded(tmpPath, ModeExecutable));
    assert Filling(tmpPath, newBinary)[1..] == done;
    var closed := fs.Close(tmpPath);
    if closed.Err? {
      return Err(ClosingTemp(closed.error)), armed;
    }
    var renamed := fs.Rename(tmpPath, target);
    if renamed.Err? {
      return Err(Renaming(renamed.error)), armed;
    }
    ReplayStep(start, done, Renamed(tmpPath, target));
    // The rename succeeded: disarm the cleanup.
    armed := "";
    r := Ok(());
  }

  /**
   * The deferred function of `replaceBinary`: removes the temporary file
   * unless `tmpPath` has been cleared; a failing removal is ignored.
   * `start` and `events` are the state before the replacement and the
   * changes made since.
   */
  method DeferredCleanup(fs: FileSystem, tmpPath: string, ghost start: map<string, File>, ghost startLog: seq<Event>,
                         ghost events: seq<Event>)
    modifies fs
    requires fs.files == Replay(start, events) && fs.log == startLog + events
    requires tmpPath != "" ==> tmpPath in fs.files
    ensures var cleanup := if tmpPath == "" || RemoveOp in fs.faults then [] else [Removed(tmpPath)];
      fs.log == startLog + (events + cleanup) && fs.files == Replay(start, events + cleanup)
  {
    assert events + [] == events;
    if tmpPath != "" && RemoveOp !in fs.faults {
      assert startLog + events + [Removed(tmpPath)] == startLog + (events + [Removed(tmpPath)]);
    }
    if tmpPath != "" {
      var _ := fs.Remove(tmpPath);
      ReplayStep(start, events, Removed(tmpPath));
    }
  }

  // ---------------------------------------------------------------------
  // Updater.Execute

  /** The errors of `Execute`, each wrapped with the step that failed. */
  datatype UpdateError =
    | CheckingLatestRelease(fetch: FetchError)         // checking latest release: %w
    | ComparingVersions(compare: CompareError)         // comparing versions: %w
    | NoReleaseAsset(asset: AssetError)                // returned unwrapped
    | DownloadingRelease(download: DownloadError)      // downloading release: %w
    | ExtractingBinary(extract: ExtractError)          // extracting binary: %w
    | DeterminingExecutablePath(cause: string)         // determining executable path: %w
    | ReplacingBinary(replace: ReplaceError)           // replacing binary: %w

  /** How a successful `Execute` ended. */
  datatype UpdateStatus = AlreadyLatest | Updated

  /** What `Execute` returns, the requests it sends and the changes it makes to the file system. */
  datatype UpdateOutcome = UpdateOutcome(result: Result<UpdateStatus, UpdateError>, requests: seq<Request>, events: seq<Event>)

  /**
   * The updater's inputs: the client and file system it works through,
   * the version and platform it runs as, the path override, and the
   * outcomes of the steps whose workings are not modelled (locating the
   * running executable, decoding the release JSON, decompressing the
   * archive, the random part of the temporary name).
   */
  class Updater {
    const client: HttpClient
    const fs: FileSystem
    const currentVersion: string
    const goos: string
    const goarch: string
    const execPath: string
    const resolvedExecutable: Result<string, string>
    const decodeRelease: seq<byte> -> Result<ReleaseInfo, string>
    const openArchive: seq<byte> -> Result<TarStream, string>
    const tempRandom: string

    constructor(client: HttpClient, fs: FileSystem, currentVersion: string, goos: string, goarch: string,
                execPath: string, resolvedExecutable: Result<string, string>,
                decodeRelease: seq<byte> -> Result<ReleaseInfo, string>,
                openArchive: seq<byte> -> Result<TarStream, string>, tempRandom: string)
      ensures this.client == client && this.fs == fs && this.currentVersion == currentVersion
      ensures this.goos == goos && this.goarch == goarch && this.execPath == execPath
      ensures this.resolvedExecutable == resolvedExecutable && this.decodeRelease == decodeRelease
      ensures this.openArchive == openArchive && this.tempRandom == tempRandom
    {
      this.client := client;
      this.fs := fs;
      this.currentVersion := currentVersion;
      this.goos := goos;
      this.goarch := goarch;
      this.execPath := execPath;
      this.resolvedExecutable := resolvedExecutable;
      this.decodeRelease := decodeRelease;
      this.openArchive := openArchive;
      this.tempRandom := tempRandom;
    }

    /** The release the latest-release query yields. */
    function Fetched(): Result<ReleaseInfo, FetchError>
    {
      ReleaseFromResponse(client.respond(LatestRequest), decodeRelease)
    }

    /**
     * The whole workflow on a file system holding `files`, step by step,
     * each step short-circuiting on its error.
     */
    function Plan(files: map<string, File>): UpdateOutcome
    {
      match Fetched()
      case Err(e) => UpdateOutcome(Err(CheckingLatestRelease(e)), [LatestRequest], [])
      case Ok(release) =>
        var latest := TrimPrefix(release.tagName, "v");
        match IsNewer(latest, currentVersion)
        case Err(e) => UpdateOutcome(Err(ComparingVersions(e)), [LatestRequest], [])
        case Ok(newer) =>
          if !newer then UpdateOutcome(Ok(AlreadyLatest), [LatestRequest], [])
          else
            match FindAssetURL(release, goos, goarch)
            case Err(e) => UpdateOutcome(Err(NoReleaseAsset(e)), [LatestRequest], [])
            case Ok(url) =>
              var requests := [LatestRequest, DownloadRequest(url)];
              match DownloadFromResponse(client.respond(DownloadRequest(url)))
              case Err(e) => UpdateOutcome(Err(DownloadingRelease(e)), requests, [])
              case Ok(archive) =>
                match Extract(archive, openArchive)
                case Err(e) => UpdateOutcome(Err(ExtractingBinary(e)), requests, [])
                case Ok(binary) =>
                  match ExecutablePath(execPath, resolvedExecutable)
                  case Err(e) => UpdateOutcome(Err(DeterminingExecutablePath(e)), requests, [])
                  case Ok(target) =>
                    var out := ReplaceSpec(files, fs.faults, target, binary, tempRandom);
                    UpdateOutcome(if out.result.Ok? then Ok(Updated) else Err(ReplacingBinary(out.result.error)),
                                  requests, out.events)
    }

    /** `Execute`: the workflow run through the client and the file system. */
    method Execute() returns (r: Result<UpdateStatus, UpdateError>)
      modifies client, fs
      ensures var plan := Plan(old(fs.files));
        && r == plan.result
        && client.sent == old(client.sent) + plan.requests
        && fs.log == old(fs.log) + plan.events
        && fs.files == Replay(old(fs.files), plan.events)
    {
      ghost var files := fs.files;
      var fetched := FetchLatestRelease(client, decodeRelease);
      if fetched.Err? {
        return Err(CheckingLatestRelease(fetched.error));
      }
      var release := fetched.value;
      var latest := TrimPrefix(release.tagName, "v");

      var newer := IsNewer(latest, currentVersion);
      if newer.Err? {
        return Err(ComparingVersions(newer.error));
      }
      if !newer.value {
        return Ok(AlreadyLatest);
      }

      var asset := FindAssetURL(release, goos, goarch);
      if asset.Err? {
        return Err(NoReleaseAsset(asset.error));
      }

      var archive := Download(client, asset.value);
      if archive.Err? {
        return Err(DownloadingRelease(archive.error));
      }

      var binary := ExtractBinary(archive.value, openArchive);
      if binary.Err? {
        return Err(ExtractingBinary(binary.error));
      }

      var target := ExecutablePath(execPath, resolvedExecutable);
      if target.Err? {
        return Err(DeterminingExecutablePath(target.error));
      }

      var replaced := ReplaceBinary(fs, target.value, binary.value, tempRandom);
      if replaced.Err? {
        return Err(ReplacingBinary(replaced.error));
      }
      r := Ok(Updated);
    }
  }

  /**
   * `Execute` reports "already the latest" exactly when the release was
   * fetched and its tag, without the "v", is not newer than the running
   * version; it then sends only the release query and changes no file.
   */
  lemma AlreadyLatestChangesNothing(u: Updater, files: map<string, File>)
    ensures u.Plan(files).result == Ok(AlreadyLatest) <==>
              u.Fetched().Ok? && IsNewer(TrimPrefix(u.Fetched().value.tagName, "v"), u.currentVersion) == Ok(false)
    ensures u.Plan(files).result == Ok(AlreadyLatest) ==>
              u.Plan(files).requests == [LatestRequest] && u.Plan(files).events == []
  {
  }

  /**
   * A failing `Execute` leaves every file that existed before as it was;
   * only a failure of the replacement itself changes anything at all,
   * and a failure before the download sends nothing after the release
   * query.
   */
  lemma FailedUpdateKeepsFiles(u: Updater, files: map<string, File>)
    requires u.Plan(files).result.Err?
    ensures var after := Replay(files, u.Plan(files).events);
      forall p :: p in files ==> p in after && after[p] == files[p]
    ensures !u.Plan(files).result.error.ReplacingBinary? ==> u.Plan(files).events == []
    ensures var e := u.Plan(files).result.error;
      e.CheckingLatestRelease? || e.ComparingVersions? || e.NoReleaseAsset? ==> u.Plan(files).requests == [LatestRequest]
  {
    var plan := u.Plan(files);
    if plan.result.error.ReplacingBinary? {
      var release := u.Fetched().value;
      var url := FindAssetURL(release, u.goos, u.goarch).value;
      var archive := DownloadFromResponse(u.client.respond(DownloadRequest(url))).value;
      var binary := Extract(archive, u.openArchive).value;
      var target := ExecutablePath(u.execPath, u.resolvedExecutable).value;
      assert plan.events == ReplaceSpec(files, u.fs.faults, target, binary, u.tempRandom).events;
      ReplaceFailsCleanly(files, u.fs.faults, target, binary, u.tempRandom);
    }
  }

  /**
   * A successful update leaves the file system as it was except that the
   * executable's path now holds exactly the extracted binary, with mode
   * 0755.
   */
  lemma UpdatedInstallsBinary(u: Updater, files: map<string, File>)
    requires u.Plan(files).result == Ok(Updated)
    ensures var release := u.Fetched().value;
      var url := FindAssetURL(release, u.goos, u.goarch).value;
      var binary := Extract(DownloadFromResponse(u.client.respond(DownloadRequest(url))).value, u.openArchive).value;
      var target := ExecutablePath(u.execPath, u.resolvedExecutable).value;
      Replay(files, u.Plan(files).events) == files[target := File(binary, ModeExecutable)]
  {
    var release := u.Fetched().value;
    var url := FindAssetURL(release, u.goos, u.goarch).value;
    var binary := Extract(DownloadFromResponse(u.client.respond(DownloadRequest(url))).value, u.openArchive).value;
    var target := ExecutablePath(u.execPath, u.resolvedExecutable).value;
    ReplaceSucceeds(files, u.fs.faults, target, binary, u.tempRandom);
  }
}
