/**
 * Random branch names for new worktrees (internal/worktree/name.go):
 * three short dictionary words, lower-cased and joined by hyphens. The
 * dictionary file's lines and the random draws are inputs.
 */
module Names {
  import opened Wrappers
  import opened Errors
  import opened Text
  import opened Seqs

  const DictPath := "/usr/share/dict/words"
  const MaxWordLen := 6
  const WordCount := 3

  /** The dictionary as the line scanner reads it: its lines, then the scanner's error, if any. */
  datatype Dictionary = Dictionary(lines: seq<string>, readErr: Option<Error>)

  /** The errors of `GenerateName`. */
  datatype NameError =
    | OpeningDictionary(cause: Error)      // opening dictionary /usr/share/dict/words: %w
    | ReadingDictionary(cause: Error)      // reading dictionary: %w
    | NotEnoughWords(found: nat)           // not enough words in dictionary (found %d, need 3)

  /** The line, with surrounding white space removed, is a word of 1 to 6 bytes. */
  predicate IsCandidate(line: string)
  {
    0 < ByteLen(TrimSpace(line)) <= MaxWordLen
  }

  /** The word a candidate line contributes. */
  function Word(line: string): string
  {
    ToLower(TrimSpace(line))
  }

  /** A word `GenerateName` may use: lower-case, of 1 to 6 bytes. */
  predicate ShortLowerWord(w: string)
  {
    0 < ByteLen(w) <= MaxWordLen && forall i :: 0 <= i < |w| ==> !('A' <= w[i] <= 'Z')
  }

  /** The words of the dictionary lines, in order: every candidate line trimmed and lower-cased. */
  function Candidates(lines: seq<string>): seq<string>
  {
    FilterMap(lines, IsCandidate, Word)
  }

  /** A candidate line gives a short lower-case word. */
  lemma CandidateWord(line: string)
    requires IsCandidate(line)
    ensures ShortLowerWord(Word(line))
  {
    ToLowerByteLen(TrimSpace(line));
    ToLowerMeaning(TrimSpace(line));
  }

  /**
   * The words are those of the candidate lines, in order: the `k`-th is
   * the word of the candidate line at `Kept(lines, IsCandidate)[k]`, these
   * positions increase, each word is a short lower-case word, and every
   * candidate line's word is among them.
   */
  lemma CandidatesMeaning(lines: seq<string>)
    ensures |Candidates(lines)| == |Kept(lines, IsCandidate)| <= |lines|
    ensures forall k :: 0 <= k < |Candidates(lines)| ==>
              var i := Kept(lines, IsCandidate)[k];
              i < |lines| && IsCandidate(lines[i]) && Candidates(lines)[k] == Word(lines[i])
    ensures forall j, k :: 0 <= j < k < |Candidates(lines)| ==> Kept(lines, IsCandidate)[j] < Kept(lines, IsCandidate)[k]
    ensures forall k :: 0 <= k < |Candidates(lines)| ==> ShortLowerWord(Candidates(lines)[k])
    ensures forall i :: 0 <= i < |lines| && IsCandidate(lines[i]) ==> Word(lines[i]) in Candidates(lines)
  {
    var words := Candidates(lines);
    KeptImages(lines, IsCandidate, Word);
    FilterMapKeepsAll(lines, IsCandidate, Word);
    forall k | 0 <= k < |words| ensures ShortLowerWord(words[k]) {
      CandidateWord(lines[Kept(lines, IsCandidate)[k]]);
    }
  }

  /** The words the draws pick: draw `d` picks the word at `d % |words|`, as `rand.Intn(len(words))` yields some index below the count. */
  function Picks(words: seq<string>, draws: seq<nat>): (picked: seq<string>)
    requires |words| > 0
    ensures |picked| == |draws|
    ensures forall i :: 0 <= i < |draws| ==> picked[i] == words[draws[i] % |words|]
  {
    seq(|draws|, i requires 0 <= i < |draws| => words[draws[i] % |words|])
  }

  /**
   * `GenerateName` for the dictionary `dict` (or the error opening it)
   * and the `WordCount` random draws `draws`.
   */
  method GenerateName(dict: Result<Dictionary, Error>, draws: seq<nat>) returns (r: Result<string, NameError>)
    requires |draws| == WordCount
    ensures dict.Err? ==> r == Err(OpeningDictionary(dict.error))
    ensures dict.Ok? && dict.value.readErr.Some? ==> r == Err(ReadingDictionary(dict.value.readErr.value))
    ensures dict.Ok? && dict.value.readErr.None? ==>
              var words := Candidates(dict.value.lines);
              if |words| < WordCount then r == Err(NotEnoughWords(|words|))
              else r == Ok(Join(Picks(words, draws), "-"))
  {
    if dict.Err? {
      return Err(OpeningDictionary(dict.error));
    }
    var words := ScanWords(dict.value.lines);
    if dict.value.readErr.Some? {
      return Err(ReadingDictionary(dict.value.readErr.value));
    }
    if |words| < WordCount {
      return Err(NotEnoughWords(|words|));
    }
    var picked := new string[WordCount];
    for j := 0 to WordCount
      invariant picked[..j] == Picks(words, draws[..j])
    {
      picked[j] := words[draws[j] % |words|];
      assert draws[..j + 1][..j] == draws[..j];
    }
    assert draws[..WordCount] == draws;
    assert picked[..] == Picks(words, draws);
    r := Ok(Join(picked[..], "-"));
  }

  /** The scanner loop of `GenerateName`: keeps the trimmed, lower-cased candidate lines in order. */
  method ScanWords(lines: seq<string>) returns (words: seq<string>)
    ensures words == Candidates(lines)
  {
    words := [];
    var i := 0;
    while i < |lines|
      invariant 0 <= i <= |lines|
      invariant words == Candidates(lines[..i])
    {
      var w := TrimSpace(lines[i]);
      assert lines[..i + 1][..i] == lines[..i] && lines[..i + 1][i] == lines[i];
      if 0 < ByteLen(w) <= MaxWordLen {
        words := words + [ToLower(w)];
      }
      i := i + 1;
    }
    assert lines[..i] == lines;
  }

  /**
   * When no dictionary word holds a hyphen, splitting the name at '-'
   * gives back the three picked words, each a short lower-case word from
   * the dictionary (the same word may be picked more than once).
   */
  lemma NameSplitsIntoPicks(lines: seq<string>, draws: seq<nat>)
    requires |draws| == WordCount && |Candidates(lines)| >= WordCount
    requires forall k :: 0 <= k < |Candidates(lines)| ==> '-' !in Candidates(lines)[k]
    ensures var words := Candidates(lines);
      var parts := Split(Join(Picks(words, draws), "-"), '-');
      && parts == Picks(words, draws)
      && |parts| == WordCount
      && forall k :: 0 <= k < |parts| ==> parts[k] in words && ShortLowerWord(parts[k])
  {
    var words := Candidates(lines);
    CandidatesMeaning(lines);
    var picked := Picks(words, draws);
    forall k | 0 <= k < |picked| ensures '-' !in picked[k] {
      assert picked[k] == words[draws[k] % |words|];
    }
    SplitJoin(picked, '-');
    assert ['-'] == "-";
  }

  /** The dictionary lines "a-b", "c" and "d" are all candidates, and their own words. */
  lemma PlainLinesAreWords()
    ensures Candidates(["a-b", "c", "d"]) == ["a-b", "c", "d"]
  {
    var lines := ["a-b", "c", "d"];
    assert TrimSpace("a-b") == "a-b" by {
      assert TrimLeftSpace("a-b") == "a-b";
      assert TrimRightSpace("a-b") == "a-b";
    }
    assert TrimSpace("c") == "c" by {
      assert TrimLeftSpace("c") == "c";
      assert TrimRightSpace("c") == "c";
    }
    assert TrimSpace("d") == "d" by {
      assert TrimLeftSpace("d") == "d";
      assert TrimRightSpace("d") == "d";
    }
    assert ToLower("a-b") == "a-b";
    assert ToLower("c") == "c";
    assert ToLower("d") == "d";
    assert lines[..2][..1] == ["a-b"];
    assert lines[..2] == ["a-b", "c"];
    assert Candidates(["a-b"]) == ["a-b"] by {
      assert ["a-b"][..0] == [];
    }
  }

  /** "a-b-a-b-a-b" splits at '-' into six pieces. */
  lemma SixPieces()
    ensures Split("a-b-a-b-a-b", '-') == ["a", "b", "a", "b", "a", "b"]
  {
    var pieces := ["a", "b", "a", "b", "a", "b"];
    assert Join(pieces, "-") == "a-b-a-b-a-b" by {
      assert pieces[1..][1..][1..][1..][1..] == ["b"];
    }
    SplitJoin(pieces, '-');
    assert ['-'] == "-";
  }

  /**
   * A dictionary word holding a hyphen passes the filter, and then the
   * name does not split into three words: "a-b" picked three times gives
   * six pieces.
   */
  lemma HyphenatedWordBreaksParts()
    ensures var words := Candidates(["a-b", "c", "d"]);
      |Split(Join(Picks(words, [0, 0, 0]), "-"), '-')| == 6
  {
    PlainLinesAreWords();
    var picked := Picks(["a-b", "c", "d"], [0, 0, 0]);
    assert picked == ["a-b", "a-b", "a-b"];
    assert Join(picked, "-") == "a-b-a-b-a-b" by {
      assert picked[1..][1..] == ["a-b"];
    }
    SixPieces();
  }
}
