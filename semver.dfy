/**
 * Version comparison of the self-update (internal/update/semver.go):
 * "X.Y.Z" strings, optionally prefixed by one "v", ordered by their
 * (major, minor, patch) triple.
 */
module Semver {
  import opened Wrappers
  import opened Text

  /** A parsed version. The components are integers: `strconv.Atoi` accepts a sign. */
  datatype Version = Version(major: int, minor: int, patch: int)

  /** The errors of `parseVersion`, each naming the text it could not read. */
  datatype VersionError =
    | InvalidFormat(version: string)   // invalid version format %q: expected X.Y.Z
    | InvalidMajor(segment: string)    // invalid major version %q
    | InvalidMinor(segment: string)    // invalid minor version %q
    | InvalidPatch(segment: string)    // invalid patch version %q

  /** The errors of `isNewer`: which of its two arguments did not parse. */
  datatype CompareError =
    | ParsingLatest(cause: VersionError)    // parsing latest version: %w
    | ParsingCurrent(cause: VersionError)   // parsing current version: %w

  predicate IsDigit(c: char)
  {
    '0' <= c <= '9'
  }

  predicate AllDigits(s: string)
  {
    forall i :: 0 <= i < |s| ==> IsDigit(s[i])
  }

  /** The text `strconv.Atoi` accepts: an optional '+' or '-', then one or more decimal digits. */
  predicate IsDecimal(s: string)
  {
    if |s| > 0 && (s[0] == '+' || s[0] == '-') then |s| > 1 && AllDigits(s[1..])
    else |s| > 0 && AllDigits(s)
  }

  /** The value of a string of decimal digits, read left to right. */
  function DigitsValue(s: string): nat
    requires AllDigits(s)
  {
    if s == "" then 0 else DigitsValue(s[..|s| - 1]) * 10 + (s[|s| - 1] as int - '0' as int)
  }

  /** `strconv.Atoi` without its range check: `None` is a syntax error. */
  function Atoi(s: string): (r: Option<int>)
    ensures r.Some? <==> IsDecimal(s)
    ensures r.Some? && s[0] != '-' ==> r.value >= 0
  {
    if s == "" then None
    else if s[0] == '+' || s[0] == '-' then
      var digits := s[1..];
      if digits == "" || !AllDigits(digits) then None
      else if s[0] == '-' then Some(0 - DigitsValue(digits) as int)
      else Some(DigitsValue(digits))
    else if AllDigits(s) then Some(DigitsValue(s))
    else None
  }

  function DigitChar(d: nat): char
    requires d < 10
  {
    ('0' as int + d) as char
  }

  /** The decimal text of `n`, as `strconv.Itoa` writes it. */
  function Decimal(n: nat): (s: string)
    ensures |s| > 0 && AllDigits(s)
  {
    if n < 10 then [DigitChar(n)] else Decimal(n / 10) + [DigitChar(n % 10)]
  }

  lemma {:induction false} DecimalValue(n: nat)
    ensures DigitsValue(Decimal(n)) == n
  {
    if n >= 10 {
      var s := Decimal(n);
      assert s[..|s| - 1] == Decimal(n / 10);
      DecimalValue(n / 10);
    }
  }

  /** `Atoi` reads back what `Decimal` writes, with or without a sign. */
  lemma AtoiDecimal(n: nat)
    ensures Atoi(Decimal(n)) == Some(n)
    ensures Atoi("+" + Decimal(n)) == Some(n)
    ensures Atoi("-" + Decimal(n)) == Some(0 - n as int)
  {
    DecimalValue(n);
    assert ("+" + Decimal(n))[1..] == Decimal(n);
    assert ("-" + Decimal(n))[1..] == Decimal(n);
  }

  /**
   * `parseVersion`: strip one leading "v", split on ".", demand exactly
   * three pieces and read each with `Atoi`, major first.
   */
  function ParseVersion(s: string): (r: Result<Version, VersionError>)
    ensures var parts := Split(TrimPrefix(s, "v"), '.');
      && (|parts| != 3 ==> r == Err(InvalidFormat(TrimPrefix(s, "v"))))
      && (r.Ok? <==> |parts| == 3 && IsDecimal(parts[0]) && IsDecimal(parts[1]) && IsDecimal(parts[2]))
      && (r.Ok? ==> Atoi(parts[0]) == Some(r.value.major) && Atoi(parts[1]) == Some(r.value.minor)
                    && Atoi(parts[2]) == Some(r.value.patch))
  {
    var stripped := TrimPrefix(s, "v");
    var parts := Split(stripped, '.');
    if |parts| != 3 then Err(InvalidFormat(stripped))
    else
      match Atoi(parts[0])
      case None => Err(InvalidMajor(parts[0]))
      case Some(major) =>
        match Atoi(parts[1])
        case None => Err(InvalidMinor(parts[1]))
        case Some(minor) =>
          match Atoi(parts[2])
          case None => Err(InvalidPatch(parts[2]))
          case Some(patch) => Ok(Version(major, minor, patch))
  }

  /** The canonical text "X.Y.Z" of a version with non-negative components. */
  function Format(v: Version): string
    requires v.major >= 0 && v.minor >= 0 && v.patch >= 0
  {
    Decimal(v.major) + "." + Decimal(v.minor) + "." + Decimal(v.patch)
  }

  /** Every non-negative triple parses back from "X.Y.Z" and from "vX.Y.Z" to itself. */
  lemma ParseFormat(v: Version)
    requires v.major >= 0 && v.minor >= 0 && v.patch >= 0
    ensures ParseVersion(Format(v)) == Ok(v)
    ensures ParseVersion("v" + Format(v)) == Ok(v)
  {
    var a, b, c := Decimal(v.major), Decimal(v.minor), Decimal(v.patch);
    assert '.' !in a && '.' !in b && '.' !in c by {
      assert forall s: string :: AllDigits(s) ==> '.' !in s;
    }
    var parts := [a, b, c];
    assert Join(parts, ".") == a + "." + b + "." + c by {
      assert Join(parts[1..], ".") == b + "." + c by {
        assert parts[1..][1..] == [c];
      }
    }
    SplitJoin(parts, '.');
    AtoiDecimal(v.major);
    AtoiDecimal(v.minor);
    AtoiDecimal(v.patch);
    var f := Format(v);
    assert !HasPrefix(f, "v") by {
      assert f[0] == a[0];
    }
    assert TrimPrefix("v" + f, "v") == f by {
      assert ("v" + f)[1..] == f;
    }
  }

  /** Exactly one "v" is stripped: a version and the same version prefixed by one "v" parse alike. */
  lemma ParseIgnoresOnePrefix(s: string)
    requires !HasPrefix(s, "v")
    ensures ParseVersion("v" + s) == ParseVersion(s)
  {
    assert ("v" + s)[1..] == s;
  }

  /** A second "v" is data: "vv1.2.3" is rejected, because "v1" is not a number. */
  lemma ParseStripsOnlyOnePrefix()
    ensures ParseVersion("vv1.2.3").Err?
  {
    assert TrimPrefix("vv1.2.3", "v") == "v1.2.3";
    SplitAfterPiece("v1", '.', "2.3");
    assert "v1.2.3" == "v1" + "." + "2.3";
    assert Atoi("v1") == None;
  }

  /** The inputs of semver_test.go with too few or too many pieces are rejected. */
  lemma ParseRejectsWrongPieceCount()
    ensures ParseVersion("").Err?
    ensures ParseVersion("1").Err?
    ensures ParseVersion("1.2").Err?
    ensures ParseVersion("1.2.3.4").Err?
  {
    SplitNoSeparator("1", '.');
    SplitJoin(["1", "2"], '.');
    assert Join(["1", "2"], ".") == "1.2";
    SplitJoin(["1", "2", "3", "4"], '.');
    assert Join(["1", "2", "3", "4"], ".") == "1.2.3.4";
  }

  /** Three pieces that are read as a version exactly when each piece is a decimal integer. */
  lemma ParseThreePieces(a: string, b: string, c: string)
    requires '.' !in a && '.' !in b && '.' !in c && !HasPrefix(a, "v")
    ensures ParseVersion(a + "." + b + "." + c).Ok? <==> IsDecimal(a) && IsDecimal(b) && IsDecimal(c)
    ensures ParseVersion(a + "." + b + "." + c).Ok? ==>
              ParseVersion(a + "." + b + "." + c).value == Version(Atoi(a).value, Atoi(b).value, Atoi(c).value)
  {
    var parts := [a, b, c];
    assert Join(parts, ".") == a + "." + b + "." + c by {
      assert Join(parts[1..], ".") == b + "." + c by {
        assert parts[1..][1..] == [c];
      }
    }
    SplitJoin(parts, '.');
    var s := a + "." + b + "." + c;
    assert !HasPrefix(s, "v") by {
      if |a| > 0 { assert s[0] == a[0]; } else { assert s[0] == '.'; }
    }
  }

  /** The inputs of semver_test.go with a piece that is not a number are rejected. */
  lemma ParseRejectsNonNumbers()
    ensures ParseVersion("a.b.c").Err?
    ensures ParseVersion("1.2.x").Err?
  {
    assert !IsDecimal("a");
    ParseThreePieces("a", "b", "c");
    assert "a.b.c" == "a" + "." + "b" + "." + "c";
    assert !IsDecimal("x");
    ParseThreePieces("1", "2", "x");
    assert "1.2.x" == "1" + "." + "2" + "." + "x";
  }

  /** A sign is accepted, as `strconv.Atoi` accepts it: "-1.0.0" is a version. */
  lemma ParseAcceptsSign()
    ensures ParseVersion("-1.0.0") == Ok(Version(-1, 0, 0))
  {
    assert !HasPrefix("-1", "v") by {
      assert "-1"[..1] == "-";
    }
    ParseThreePieces("-1", "0", "0");
    assert "-1.0.0" == "-1" + "." + "0" + "." + "0";
    AtoiDecimal(1);
    AtoiDecimal(0);
    assert Decimal(1) == "1" && Decimal(0) == "0";
    assert "-1" == "-" + Decimal(1);
  }

  /** `a` comes strictly before `b`: smaller major, or equal major and smaller minor, or both equal and smaller patch. */
  predicate Precedes(a: Version, b: Version)
  {
    a.major < b.major
    || (a.major == b.major && a.minor < b.minor)
    || (a.major == b.major && a.minor == b.minor && a.patch < b.patch)
  }

  /** `Precedes` is a strict total order on versions. */
  lemma PrecedesIsStrictTotalOrder(a: Version, b: Version, c: Version)
    ensures !Precedes(a, a)
    ensures Precedes(a, b) ==> !Precedes(b, a)
    ensures Precedes(a, b) && Precedes(b, c) ==> Precedes(a, c)
    ensures a == b || Precedes(a, b) || Precedes(b, a)
  {
  }

  /** `isNewer`: parse `latest`, then `current`, then compare component by component. */
  function IsNewer(latest: string, current: string): (r: Result<bool, CompareError>)
    ensures ParseVersion(latest).Err? ==> r == Err(ParsingLatest(ParseVersion(latest).error))
    ensures ParseVersion(latest).Ok? && ParseVersion(current).Err? ==>
              r == Err(ParsingCurrent(ParseVersion(current).error))
    ensures r.Ok? <==> ParseVersion(latest).Ok? && ParseVersion(current).Ok?
    ensures r.Ok? ==> r.value == Precedes(ParseVersion(current).value, ParseVersion(latest).value)
  {
    match ParseVersion(latest)
    case Err(e) => Err(ParsingLatest(e))
    case Ok(l) =>
      match ParseVersion(current)
      case Err(e) => Err(ParsingCurrent(e))
      case Ok(c) =>
        if l.major != c.major then Ok(l.major > c.major)
        else if l.minor != c.minor then Ok(l.minor > c.minor)
        else Ok(l.patch > c.patch)
  }

  /** No version is newer than itself. */
  lemma NotNewerThanItself(s: string)
    requires ParseVersion(s).Ok?
    ensures IsNewer(s, s) == Ok(false)
  {
  }

  /** If `a` is newer than `b`, then `b` is not newer than `a`. */
  lemma NewerIsAsymmetric(a: string, b: string)
    requires IsNewer(a, b) == Ok(true)
    ensures IsNewer(b, a) == Ok(false)
  {
  }

  /** Comparing two canonical texts, with or without a "v", compares their triples. */
  lemma IsNewerOfFormats(l: Version, c: Version)
    requires l.major >= 0 && l.minor >= 0 && l.patch >= 0
    requires c.major >= 0 && c.minor >= 0 && c.patch >= 0
    ensures IsNewer(Format(l), Format(c)) == Ok(Precedes(c, l))
    ensures IsNewer("v" + Format(l), Format(c)) == Ok(Precedes(c, l))
    ensures IsNewer("v" + Format(l), "v" + Format(c)) == Ok(Precedes(c, l))
  {
    ParseFormat(l);
    ParseFormat(c);
  }

  /** A version of three one-digit components, written "a.b.c" or "va.b.c", reads back as its triple. */
  lemma ParseDigits(a: nat, b: nat, c: nat)
    requires a < 10 && b < 10 && c < 10
    ensures ParseVersion([DigitChar(a), '.', DigitChar(b), '.', DigitChar(c)]) == Ok(Version(a, b, c))
    ensures ParseVersion(['v', DigitChar(a), '.', DigitChar(b), '.', DigitChar(c)]) == Ok(Version(a, b, c))
  {
    var v := Version(a, b, c);
    ParseFormat(v);
    assert Decimal(a) == [DigitChar(a)] && Decimal(b) == [DigitChar(b)] && Decimal(c) == [DigitChar(c)];
    assert Format(v) == [DigitChar(a), '.', DigitChar(b), '.', DigitChar(c)];
    assert "v" + Format(v) == ['v', DigitChar(a), '.', DigitChar(b), '.', DigitChar(c)];
  }

  /** The texts of semver_test.go read as the triples they spell. */
  lemma ParseExamples()
    ensures ParseVersion("0.1.0") == Ok(Version(0, 1, 0))
    ensures ParseVersion("0.1.1") == Ok(Version(0, 1, 1))
    ensures ParseVersion("0.2.0") == Ok(Version(0, 2, 0))
    ensures ParseVersion("1.0.0") == Ok(Version(1, 0, 0))
    ensures ParseVersion("2.0.0") == Ok(Version(2, 0, 0))
    ensures ParseVersion("v0.1.0") == Ok(Version(0, 1, 0))
    ensures ParseVersion("v0.2.0") == Ok(Version(0, 2, 0))
  {
    ParseDigits(0, 1, 0);
    ParseDigits(0, 1, 1);
    ParseDigits(0, 2, 0);
    ParseDigits(1, 0, 0);
    ParseDigits(2, 0, 0);
  }

  /** The comparisons of semver_test.go: newer exactly when the first triple is larger. */
  lemma IsNewerExamples()
    ensures IsNewer("2.0.0", "1.0.0") == Ok(true)
    ensures IsNewer("0.2.0", "0.1.0") == Ok(true)
    ensures IsNewer("0.1.1", "0.1.0") == Ok(true)
    ensures IsNewer("v0.2.0", "0.1.0") == Ok(true)
    ensures IsNewer("v0.2.0", "v0.1.0") == Ok(true)
    ensures IsNewer("0.1.0", "0.1.0") == Ok(false)
    ensures IsNewer("0.1.0", "1.0.0") == Ok(false)
    ensures IsNewer("0.1.0", "0.2.0") == Ok(false)
    ensures IsNewer("0.1.0", "0.1.1") == Ok(false)
  {
    ParseExamples();
    var v010, v011, v020 := Version(0, 1, 0), Version(0, 1, 1), Version(0, 2, 0);
    var v100, v200 := Version(1, 0, 0), Version(2, 0, 0);
    assert Precedes(v100, v200) && Precedes(v010, v020) && Precedes(v010, v011);
    assert !Precedes(v010, v010) && !Precedes(v100, v010) && !Precedes(v020, v010) && !Precedes(v011, v010);
  }
}
