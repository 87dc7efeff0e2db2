/**
 * The slice of the operating system's file system that the binary
 * replacement uses: a map from path to file, operations that may fail,
 * and a log of every change made, so that each intermediate state can be
 * reconstructed.
 */
module Fs {
  import opened Wrappers
  import opened Text

  /** Permission bits 0600, which `os.CreateTemp` gives a new file. */
  const ModeTempFile := 384

  /** Permission bits 0755. */
  const ModeExecutable := 493

  /** A regular file: its bytes and its permission bits. */
  datatype File = File(data: seq<byte>, mode: int)

  /** The kinds of operation; any of them can be made to fail. */
  datatype Op = CreateOp | WriteOp | ChmodOp | CloseOp | RenameOp | RemoveOp

  /** Why an operation failed: it was made to fail, or its path was missing or already taken. */
  datatype FsError = Failed(op: Op, path: string)

  /** One change to the file system. */
  datatype Event =
    | Created(path: string)
    | Wrote(path: string, data: seq<byte>)
    | Chmodded(path: string, mode: int)
    | Renamed(from: string, to: string)
    | Removed(path: string)

  /** The state after one change. */
  function Apply(files: map<string, File>, e: Event): map<string, File>
  {
    match e
    case Created(p) => files[p := File([], ModeTempFile)]
    case Wrote(p, d) => if p in files then files[p := File(files[p].data + d, files[p].mode)] else files
    case Chmodded(p, m) => if p in files then files[p := File(files[p].data, m)] else files
    case Renamed(a, b) => if a in files then (files - {a})[b := files[a]] else files
    case Removed(p) => files - {p}
  }

  /** The state after a sequence of changes, applied first to last. */
  function Replay(files: map<string, File>, events: seq<Event>): map<string, File>
  {
    if events == [] then files else Apply(Replay(files, events[..|events| - 1]), events[|events| - 1])
  }

  lemma {:induction false} ReplayAppend(files: map<string, File>, a: seq<Event>, b: seq<Event>)
    ensures Replay(files, a + b) == Replay(Replay(files, a), b)
    decreases |b|
  {
    if b == [] {
      assert a + b == a;
    } else {
      assert (a + b)[..|a + b| - 1] == a + b[..|b| - 1];
      ReplayAppend(files, a, b[..|b| - 1]);
    }
  }

  /**
   * A file system whose contents are `files`; operations of a kind in
   * `faults` fail without changing anything, and every change that
   * succeeds is appended to `log`.
   */
  class FileSystem {
    var files: map<string, File>
    var log: seq<Event>
    const faults: set<Op>

    constructor(files: map<string, File>, faults: set<Op>)
      ensures this.files == files && log == [] && this.faults == faults
    {
      this.files := files;
      log := [];
      this.faults := faults;
    }

    /**
     * `os.CreateTemp(dir, prefix + "*")` with `random` standing for the
     * random part of the name: an empty file with mode 0600, which must
     * not exist yet.
     */
    method CreateTemp(dir: string, prefix: string, random: string) returns (r: Result<string, FsError>)
      modifies this
      ensures var path := JoinPath(dir, prefix + random);
        if CreateOp in faults || path in old(files) then
          r == Err(Failed(CreateOp, path)) && files == old(files) && log == old(log)
        else
          r == Ok(path) && files == Apply(old(files), Created(path)) && log == old(log) + [Created(path)]
    {
      var path := JoinPath(dir, prefix + random);
      if CreateOp in faults || path in files {
        return Err(Failed(CreateOp, path));
      }
      files := Apply(files, Created(path));
      log := log + [Created(path)];
      r := Ok(path);
    }

    /** Appends `data` to the open file `path`. */
    method Write(path: string, data: seq<byte>) returns (r: Result<(), FsError>)
      modifies this
      ensures if WriteOp in faults || path !in old(files) then
          r == Err(Failed(WriteOp, path)) && files == old(files) && log == old(log)
        else
          r == Ok(()) && files == Apply(old(files), Wrote(path, data)) && log == old(log) + [Wrote(path, data)]
    {
      if WriteOp in faults || path !in files {
        return Err(Failed(WriteOp, path));
      }
      files := Apply(files, Wrote(path, data));
      log := log + [Wrote(path, data)];
      r := Ok(());
    }

    /** Sets the permission bits of `path`. */
    method Chmod(path: string, mode: int) returns (r: Result<(), FsError>)
      modifies this
      ensures if ChmodOp in faults || path !in old(files) then
          r == Err(Failed(ChmodOp, path)) && files == old(files) && log == old(log)
        else
          r == Ok(()) && files == Apply(old(files), Chmodded(path, mode)) && log == old(log) + [Chmodded(path, mode)]
    {
      if ChmodOp in faults || path !in files {
        return Err(Failed(ChmodOp, path));
      }
      files := Apply(files, Chmodded(path, mode));
      log := log + [Chmodded(path, mode)];
      r := Ok(());
    }

    /** Closes the handle of `path`; the contents are already in `files`, so nothing changes. */
    method Close(path: string) returns (r: Result<(), FsError>)
      ensures r == (if CloseOp in faults then Err(Failed(CloseOp, path)) else Ok(()))
    {
      if CloseOp in faults {
        return Err(Failed(CloseOp, path));
      }
      r := Ok(());
    }

    /** `os.Rename`: moves the file at `from` to `to` in one step, replacing what was at `to`. */
    method Rename(from: string, to: string) returns (r: Result<(), FsError>)
      modifies this
      ensures if RenameOp in faults || from !in old(files) then
          r == Err(Failed(RenameOp, from)) && files == old(files) && log == old(log)
        else
          r == Ok(()) && files == Apply(old(files), Renamed(from, to)) && log == old(log) + [Renamed(from, to)]
    {
      if RenameOp in faults || from !in files {
        return Err(Failed(RenameOp, from));
      }
      files := Apply(files, Renamed(from, to));
      log := log + [Renamed(from, to)];
      r := Ok(());
    }

    /** `os.Remove` of the file at `path`. */
    method Remove(path: string) returns (r: Result<(), FsError>)
      modifies this
      ensures if RemoveOp in faults || path !in old(files) then
          r == Err(Failed(RemoveOp, path)) && files == old(files) && log == old(log)
        else
          r == Ok(()) && files == Apply(old(files), Removed(path)) && log == old(log) + [Removed(path)]
    {
      if RemoveOp in faults || path !in files {
        return Err(Failed(RemoveOp, path));
      }
      files := Apply(files, Removed(path));
      log := log + [Removed(path)];
      r := Ok(());
    }
  }
}
