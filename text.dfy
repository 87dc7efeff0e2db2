/**
 * The parts of Go's `strings` and `path/filepath` packages that the core
 * uses, on Unix paths (separator '/').
 */
module Text {

  predicate HasPrefix(s: string, prefix: string)
  {
    |prefix| <= |s| && s[..|prefix|] == prefix
  }

  /** `strings.TrimPrefix`: removes `prefix` once, if `s` starts with it. */
  function TrimPrefix(s: string, prefix: string): (r: string)
    ensures HasPrefix(s, prefix) ==> prefix + r == s
    ensures !HasPrefix(s, prefix) ==> r == s
  {
    if HasPrefix(s, prefix) then s[|prefix|..] else s
  }

  /** `strings.Join`. */
  function Join(parts: seq<string>, sep: string): string
  {
    if |parts| == 0 then ""
    else if |parts| == 1 then parts[0]
    else parts[0] + sep + Join(parts[1..], sep)
  }

  /** `strings.Split` with a one-character separator: the pieces between separators, at least one. */
  function Split(s: string, sep: char): (parts: seq<string>)
    ensures |parts| >= 1
    ensures forall i :: 0 <= i < |parts| ==> sep !in parts[i]
    ensures Join(parts, [sep]) == s
  {
    if s == "" then [""]
    else
      var rest := Split(s[1..], sep);
      if s[0] == sep then [""] + rest
      else [[s[0]] + rest[0]] + rest[1..]
  }

  lemma {:induction false} SplitNoSeparator(a: string, sep: char)
    requires sep !in a
    ensures Split(a, sep) == [a]
  {
    if a != "" {
      SplitNoSeparator(a[1..], sep);
      assert [a[0]] + a[1..] == a;
    }
  }

  lemma {:induction false} SplitAfterPiece(a: string, sep: char, rest: string)
    requires sep !in a
    ensures Split(a + [sep] + rest, sep) == [a] + Split(rest, sep)
  {
    var s := a + [sep] + rest;
    if a == "" {
      assert s[1..] == rest;
    } else {
      assert s[1..] == a[1..] + [sep] + rest;
      SplitAfterPiece(a[1..], sep, rest);
      assert [a[0]] + a[1..] == a;
    }
  }

  /** Splitting undoes joining when no piece holds the separator. */
  lemma {:induction false} SplitJoin(parts: seq<string>, sep: char)
    requires |parts| >= 1
    requires forall i :: 0 <= i < |parts| ==> sep !in parts[i]
    ensures Split(Join(parts, [sep]), sep) == parts
  {
    if |parts| == 1 {
      SplitNoSeparator(parts[0], sep);
    } else {
      SplitJoin(parts[1..], sep);
      SplitAfterPiece(parts[0], sep, Join(parts[1..], [sep]));
      assert parts == [parts[0]] + parts[1..];
    }
  }

  /** `s` with every trailing '/' removed. */
  function TrimTrailingSlashes(s: string): (r: string)
    ensures |r| <= |s| && r == s[..|r|]
    ensures r == "" || r[|r| - 1] != '/'
    ensures forall i :: |r| <= i < |s| ==> s[i] == '/'
  {
    if s != "" && s[|s| - 1] == '/' then TrimTrailingSlashes(s[..|s| - 1]) else s
  }

  /** The text after the last '/' of `s` (all of `s` when it has none). */
  function AfterLastSlash(s: string): (r: string)
    ensures |r| <= |s| && r == s[|s| - |r|..]
    ensures '/' !in r
    ensures |r| < |s| ==> s[|s| - |r| - 1] == '/'
  {
    if s == "" then ""
    else if s[|s| - 1] == '/' then ""
    else AfterLastSlash(s[..|s| - 1]) + [s[|s| - 1]]
  }

  /** `s` up to and including its last '/' (empty when it has none). */
  function UpToLastSlash(s: string): (r: string)
    ensures r + AfterLastSlash(s) == s
    ensures r == "" || r[|r| - 1] == '/'
  {
    if s == "" then ""
    else if s[|s| - 1] == '/' then s
    else UpToLastSlash(s[..|s| - 1])
  }

  /**
   * `filepath.Base`: trailing slashes are dropped first; then the last
   * element; "." for the empty path and "/" for a path of slashes only.
   */
  function Base(path: string): (r: string)
    ensures r != ""
    ensures r == "/" || '/' !in r
  {
    if path == "" then "."
    else
      var trimmed := TrimTrailingSlashes(path);
      if trimmed == "" then "/" else AfterLastSlash(trimmed)
  }

  /** The base of a plain name is the name itself. */
  lemma BaseOfName(name: string)
    requires name != "" && '/' !in name
    ensures Base(name) == name
  {
    assert TrimTrailingSlashes(name) == name;
    UpToLastSlashOfName("", name);
    assert "" + name == name;
  }

  /** The base of a name inside a directory is the name. */
  lemma BaseOfNested(dir: string, name: string)
    requires name != "" && '/' !in name
    ensures Base(dir + "/" + name) == name
  {
    var path := dir + "/" + name;
    assert path[|path| - 1] == name[|name| - 1];
    assert TrimTrailingSlashes(path) == path;
    UpToLastSlashOfName(dir + "/", name);
    assert AfterLastSlash(path) == path[|dir| + 1..] == name;
  }

  /**
   * The elements `filepath.Clean` keeps, reading `elems` left to right
   * after the ones already `kept`: empty and "." elements vanish; ".."
   * removes the element before it, is dropped at the root of a rooted
   * path and is kept at the front of a relative one.
   */
  function Resolve(rooted: bool, kept: seq<string>, elems: seq<string>): seq<string>
    decreases |elems|
  {
    if elems == [] then kept
    else
      var e := elems[0];
      if e == "" || e == "." then Resolve(rooted, kept, elems[1..])
      else if e == ".." then
        if |kept| > 0 && kept[|kept| - 1] != ".." then Resolve(rooted, kept[..|kept| - 1], elems[1..])
        else if rooted then Resolve(rooted, kept, elems[1..])
        else Resolve(rooted, kept + [".."], elems[1..])
      else Resolve(rooted, kept + [e], elems[1..])
  }

  /** A path written from its elements: "/" in front of a rooted one, "." for an empty relative one. */
  function Render(rooted: bool, elems: seq<string>): (r: string)
    ensures r != ""
  {
    if rooted then "/" + Join(elems, "/")
    else if Join(elems, "/") == "" then "." else Join(elems, "/")
  }

  /**
   * `filepath.Clean`: the shortest equivalent path, by lexical rules only;
   * "." for the empty path.
   */
  function Clean(path: string): (r: string)
    ensures r != ""
  {
    if path == "" then "."
    else
      var rooted := path[0] == '/';
      Render(rooted, Resolve(rooted, [], Split(path, '/')))
  }

  /**
   * The elements of a clean path: none is empty, "." or holds '/', and
   * ".." occurs only at the front of a relative path.
   */
  predicate Normal(rooted: bool, elems: seq<string>)
  {
    && (forall i :: 0 <= i < |elems| ==> elems[i] != "" && elems[i] != "." && '/' !in elems[i])
    && (forall i :: 0 <= i < |elems| && elems[i] == ".." ==> !rooted && forall j :: 0 <= j < i ==> elems[j] == "..")
  }

  /** Whatever the input elements, the kept elements are those of a clean path. */
  lemma {:induction false} ResolveNormal(rooted: bool, kept: seq<string>, elems: seq<string>)
    requires Normal(rooted, kept)
    requires forall i :: 0 <= i < |elems| ==> '/' !in elems[i]
    ensures Normal(rooted, Resolve(rooted, kept, elems))
    decreases |elems|
  {
    if elems != [] {
      var e := elems[0];
      if e == "" || e == "." {
        ResolveNormal(rooted, kept, elems[1..]);
      } else if e == ".." {
        if |kept| > 0 && kept[|kept| - 1] != ".." {
          ResolveNormal(rooted, kept[..|kept| - 1], elems[1..]);
        } else if rooted {
          ResolveNormal(rooted, kept, elems[1..]);
        } else {
          assert forall j :: 0 <= j < |kept| ==> kept[j] == "..";
          ResolveNormal(rooted, kept + [".."], elems[1..]);
        }
      } else {
        ResolveNormal(rooted, kept + [e], elems[1..]);
      }
    }
  }

  /** Elements that `Resolve` skips leave the kept ones as they are. */
  lemma {:induction false} ResolveSkips(rooted: bool, kept: seq<string>, skipped: seq<string>)
    requires forall i :: 0 <= i < |skipped| ==> skipped[i] == "" || skipped[i] == "."
    ensures Resolve(rooted, kept, skipped) == kept
    decreases |skipped|
  {
    if skipped != [] {
      ResolveSkips(rooted, kept, skipped[1..]);
    }
  }

  /** The elements of a clean path, followed by skipped ones, resolve to themselves. */
  lemma {:induction false} ResolveFixed(rooted: bool, kept: seq<string>, elems: seq<string>, skipped: seq<string>)
    requires Normal(rooted, kept + elems)
    requires forall i :: 0 <= i < |skipped| ==> skipped[i] == "" || skipped[i] == "."
    ensures Resolve(rooted, kept, elems + skipped) == kept + elems
    decreases |elems|
  {
    if elems == [] {
      assert elems + skipped == skipped && kept + elems == kept;
      ResolveSkips(rooted, kept, skipped);
    } else {
      var e := elems[0];
      assert (elems + skipped)[0] == e && (elems + skipped)[1..] == elems[1..] + skipped;
      assert (kept + elems)[|kept|] == e;
      assert kept + elems == (kept + [e]) + elems[1..];
      if e == ".." {
        assert forall j :: 0 <= j < |kept| ==> (kept + elems)[j] == kept[j];
      }
      ResolveFixed(rooted, kept + [e], elems[1..], skipped);
    }
  }

  lemma {:induction false} JoinSnoc(parts: seq<string>, last: string, sep: string)
    requires |parts| >= 1
    ensures Join(parts + [last], sep) == Join(parts, sep) + sep + last
    decreases |parts|
  {
    if |parts| == 1 {
      assert (parts + [last])[1..] == [last];
    } else {
      assert (parts + [last])[1..] == parts[1..] + [last];
      JoinSnoc(parts[1..], last, sep);
    }
  }

  /** A joined sequence of pieces starts with its first piece. */
  lemma JoinStarts(parts: seq<string>, sep: string)
    requires |parts| >= 1
    ensures HasPrefix(Join(parts, sep), parts[0])
  {
  }

  /** The pieces a rendered path splits into at '/': an empty one in front of a rooted path. */
  function RenderParts(rooted: bool, elems: seq<string>): seq<string>
  {
    if rooted then [""] + elems else elems
  }

  /** "." is clean, also with a trailing '/'. */
  lemma CleanDot()
    ensures Clean(".") == "." && Clean("./") == "."
  {
    assert "./" == "." + "/" + "";
    SplitAfterPiece(".", '/', "");
    SplitNoSeparator(".", '/');
    ResolveSkips(false, [], [".", ""]);
    ResolveSkips(false, [], ["."]);
  }

  /** "/" is clean, also with a trailing '/'. */
  lemma CleanRoot()
    ensures Clean("/") == "/" && Clean("//") == "/"
  {
    assert "//" == "" + "/" + "/";
    assert "/" == "" + "/" + "";
    SplitAfterPiece("", '/', "/");
    SplitAfterPiece("", '/', "");
    ResolveSkips(true, [], ["", "", ""]);
    ResolveSkips(true, [], ["", ""]);
  }

  /** A rendered path with some pieces is their join; it and it with a '/' added split back into them. */
  lemma RenderSplits(rooted: bool, elems: seq<string>)
    requires Normal(rooted, elems) && elems != []
    ensures var d, parts := Render(rooted, elems), RenderParts(rooted, elems);
      && d == Join(parts, "/")
      && Split(d, '/') == parts && Split(d + "/", '/') == parts + [""]
      && (d[0] == '/' <==> rooted) && (d + "/")[0] == d[0]
  {
    var d, parts := Render(rooted, elems), RenderParts(rooted, elems);
    if rooted {
      assert parts[1..] == elems;
    }
    JoinStarts(parts, "/");
    JoinStarts(elems, "/");
    if !rooted {
      assert parts[0] != "" && '/' !in parts[0] && Join(parts, "/")[0] == parts[0][0];
    }
    JoinSnoc(parts, "", "/");
    assert d + "/" == Join(parts + [""], "/");
    forall i | 0 <= i < |parts| + 1 ensures '/' !in (parts + [""])[i] {
      if i < |parts| {
        assert rooted && i > 0 ==> parts[i] == elems[i - 1];
      }
    }
    SplitJoin(parts, '/');
    SplitJoin(parts + [""], '/');
  }

  /** A rendered clean path ends in '/' only when it is "/". */
  lemma RenderEnds(rooted: bool, elems: seq<string>)
    requires Normal(rooted, elems)
    ensures var d := Render(rooted, elems); d == "/" || d[|d| - 1] != '/'
  {
    var parts := RenderParts(rooted, elems);
    if elems != [] {
      var n := |elems|;
      RenderSplits(rooted, elems);
      assert elems == elems[..n - 1] + [elems[n - 1]];
      if n > 1 || rooted {
        var init := if rooted then [""] + elems[..n - 1] else elems[..n - 1];
        assert parts == init + [elems[n - 1]];
        JoinSnoc(init, elems[n - 1], "/");
      }
    }
  }

  /** A skipped element in front changes nothing. */
  lemma ResolveSkipsFirst(rooted: bool, kept: seq<string>, e: string, rest: seq<string>)
    requires e == "" || e == "."
    ensures Resolve(rooted, kept, [e] + rest) == Resolve(rooted, kept, rest)
  {
    assert ([e] + rest)[1..] == rest;
  }

  /** The pieces of a rendered clean path, followed by skipped ones, resolve to its elements. */
  lemma ResolveParts(rooted: bool, elems: seq<string>, skipped: seq<string>)
    requires Normal(rooted, elems)
    requires forall i :: 0 <= i < |skipped| ==> skipped[i] == "" || skipped[i] == "."
    ensures Resolve(rooted, [], RenderParts(rooted, elems) + skipped) == elems
  {
    ResolveFixed(rooted, [], elems, skipped);
    if rooted {
      assert RenderParts(rooted, elems) + skipped == [""] + (elems + skipped);
      ResolveSkipsFirst(rooted, [], "", elems + skipped);
    } else {
      assert [] + elems == elems;
    }
  }

  /** A rendered clean path is clean: cleaning it, with or without a trailing '/', gives it back. */
  lemma RenderClean(rooted: bool, elems: seq<string>)
    requires Normal(rooted, elems)
    ensures var d := Render(rooted, elems);
      Clean(d) == d && Clean(d + "/") == d && (d == "/" || d[|d| - 1] != '/')
  {
    RenderEnds(rooted, elems);
    if elems == [] {
      if rooted {
        CleanRoot();
      } else {
        CleanDot();
      }
    } else {
      var parts := RenderParts(rooted, elems);
      RenderSplits(rooted, elems);
      assert parts + [] == parts;
      ResolveParts(rooted, elems, []);
      ResolveParts(rooted, elems, [""]);
    }
  }

  /** `filepath.Clean` is idempotent, and a clean path ends in '/' only when it is "/". */
  lemma CleanIdempotent(path: string)
    ensures Clean(Clean(path)) == Clean(path)
    ensures Clean(Clean(path) + "/") == Clean(path)
    ensures Clean(path) == "/" || Clean(path)[|Clean(path)| - 1] != '/'
  {
    if path == "" {
      RenderClean(false, []);
    } else {
      var rooted := path[0] == '/';
      ResolveNormal(rooted, [], Split(path, '/'));
      RenderClean(rooted, Resolve(rooted, [], Split(path, '/')));
    }
  }

  /** `filepath.Dir`: everything before the last element, cleaned. */
  function Dir(path: string): (r: string)
    ensures r != ""
  {
    Clean(UpToLastSlash(path))
  }

  /** `filepath.Dir` of a path whose directory part `dir` is the join of `pieces`. */
  lemma DirOfPieces(path: string, dir: string, name: string, pieces: seq<string>, rooted: bool)
    requires path == dir + name && '/' !in name && dir != "" && dir[|dir| - 1] == '/' && rooted == (dir[0] == '/')
    requires |pieces| >= 1 && (forall i :: 0 <= i < |pieces| ==> '/' !in pieces[i]) && Join(pieces, "/") == dir
    ensures Dir(path) == Render(rooted, Resolve(rooted, [], pieces))
  {
    UpToLastSlashOfName(dir, name);
    SplitJoin(pieces, '/');
  }

  /** A "." element in the directory vanishes. */
  lemma DirDropsDot()
    ensures Dir("bin/./aw") == "bin"
  {
    DirOfPieces("bin/./aw", "bin/./", "aw", ["bin", ".", ""], false);
  }

  /** Repeated slashes in the directory count as one. */
  lemma DirMergesSlashes()
    ensures Dir("bin//aw") == "bin"
  {
    DirOfPieces("bin//aw", "bin//", "aw", ["bin", "", ""], false);
  }

  /** A ".." element in the directory removes the element before it. */
  lemma DirResolvesDotDot()
    ensures Dir("a/../b") == "."
  {
    DirOfPieces("a/../b", "a/../", "b", ["a", "..", ""], false);
  }

  /** The directory of a rooted path keeps its leading '/' and loses the trailing one. */
  lemma DirOfRooted()
    ensures Dir("/bin/aw") == "/bin"
  {
    DirOfPieces("/bin/aw", "/bin/", "aw", ["", "bin", ""], true);
  }

  /** How `os.CreateTemp` places a file name inside a directory. */
  function JoinPath(dir: string, name: string): string
  {
    if |dir| > 0 && dir[|dir| - 1] == '/' then dir + name else dir + "/" + name
  }

  /** `filepath.Join` of two elements; empty elements are dropped. */
  function PathJoin(a: string, b: string): string
  {
    if a == "" then b else if b == "" then a else JoinPath(a, b)
  }

  lemma {:induction false} UpToLastSlashOfName(prefix: string, name: string)
    requires prefix == "" || prefix[|prefix| - 1] == '/'
    requires '/' !in name
    ensures UpToLastSlash(prefix + name) == prefix
    decreases |name|
  {
    var s := prefix + name;
    if name != "" {
      assert s[..|s| - 1] == prefix + name[..|name| - 1];
      assert s[|s| - 1] == name[|name| - 1];
      UpToLastSlashOfName(prefix, name[..|name| - 1]);
    } else {
      assert s == prefix;
    }
  }

  /**
   * A file name without '/' placed inside the directory of `path` lies in
   * that very directory: `filepath.Dir` of the result is `filepath.Dir(path)`.
   */
  lemma SameDirectory(path: string, name: string)
    requires '/' !in name
    ensures Dir(JoinPath(Dir(path), name)) == Dir(path)
  {
    var d := Dir(path);
    CleanIdempotent(UpToLastSlash(path));
    if |d| > 0 && d[|d| - 1] == '/' {
      UpToLastSlashOfName(d, name);
    } else {
      UpToLastSlashOfName(d + "/", name);
      assert JoinPath(d, name) == (d + "/") + name;
    }
  }

  /** `unicode.IsSpace`, which `strings.TrimSpace` uses. */
  predicate IsSpace(c: char)
  {
    c == ' ' || c == '\t' || c == '\n' || c == '\r' || c == '\U{000B}' || c == '\U{000C}'
    || c == '\U{0085}' || c == '\U{00A0}' || c == '\U{1680}' || ('\U{2000}' <= c <= '\U{200A}')
    || c == '\U{2028}' || c == '\U{2029}' || c == '\U{202F}' || c == '\U{205F}' || c == '\U{3000}'
  }

  function TrimLeftSpace(s: string): string
  {
    if s != "" && IsSpace(s[0]) then TrimLeftSpace(s[1..]) else s
  }

  function TrimRightSpace(s: string): string
  {
    if s != "" && IsSpace(s[|s| - 1]) then TrimRightSpace(s[..|s| - 1]) else s
  }

  /** `TrimLeftSpace` keeps a suffix of `s` that does not start with white space. */
  lemma {:induction false} TrimLeftSpaceMeaning(s: string)
    ensures var r := TrimLeftSpace(s);
      |r| <= |s| && r == s[|s| - |r|..] && (r == "" || !IsSpace(r[0]))
  {
    if s != "" && IsSpace(s[0]) {
      TrimLeftSpaceMeaning(s[1..]);
    }
  }

  /** `TrimRightSpace` keeps a prefix of `s` that does not end with white space. */
  lemma {:induction false} TrimRightSpaceMeaning(s: string)
    ensures var r := TrimRightSpace(s);
      |r| <= |s| && r == s[..|r|] && (r == "" || !IsSpace(r[|r| - 1]))
  {
    if s != "" && IsSpace(s[|s| - 1]) {
      TrimRightSpaceMeaning(s[..|s| - 1]);
    }
  }

  /** `strings.TrimSpace`. */
  function TrimSpace(s: string): string
  {
    TrimRightSpace(TrimLeftSpace(s))
  }

  /** `TrimSpace` gives a piece of `s` that neither starts nor ends with white space. */
  lemma TrimSpaceMeaning(s: string)
    ensures var r := TrimSpace(s);
      && (r == "" || (!IsSpace(r[0]) && !IsSpace(r[|r| - 1])))
      && exists i, j :: 0 <= i <= j <= |s| && r == s[i..j]
  {
    var l := TrimLeftSpace(s);
    var r := TrimRightSpace(l);
    TrimLeftSpaceMeaning(s);
    TrimRightSpaceMeaning(l);
    assert r == s[|s| - |l|..][..|r|] == s[|s| - |l|..|s| - |l| + |r|];
  }

  function LowerChar(c: char): char
  {
    if 'A' <= c <= 'Z' then (c as int + 32) as char else c
  }

  /** `strings.ToLower` on the ASCII letters. */
  function ToLower(s: string): (r: string)
    ensures |r| == |s|
  {
    seq(|s|, i requires 0 <= i < |s| => LowerChar(s[i]))
  }

  /** `ToLower` leaves no upper-case ASCII letter and changes nothing else. */
  lemma ToLowerMeaning(s: string)
    ensures var r := ToLower(s);
      && (forall i :: 0 <= i < |r| ==> !('A' <= r[i] <= 'Z'))
      && (forall i :: 0 <= i < |r| ==> (r[i] == s[i] || (('A' <= s[i] <= 'Z') && r[i] == LowerChar(s[i]))))
  {
  }

  /** The number of bytes `c` takes in UTF-8, which Go's `len` counts. */
  function Utf8Width(c: char): nat
  {
    if c as int < 0x80 then 1 else if c as int < 0x800 then 2 else if c as int < 0x10000 then 3 else 4
  }

  /** Go's `len` of a string: its length in UTF-8 bytes. */
  function ByteLen(s: string): (n: nat)
    ensures |s| <= n <= 4 * |s|
  {
    if s == "" then 0 else Utf8Width(s[0]) + ByteLen(s[1..])
  }

  lemma {:induction false} ToLowerByteLen(s: string)
    ensures ByteLen(ToLower(s)) == ByteLen(s)
  {
    if s != "" {
      assert ToLower(s)[1..] == ToLower(s[1..]);
      ToLowerByteLen(s[1..]);
    }
  }
}
