/**
 * The trigram helpers of packages/frontend/src/utils/trigrams.ts: a table
 * of two trigrams searched for the first whose three lines match, and a
 * six-line split into the first and last three lines.
 */
module PackagesFrontendTrigrams {
  import opened Wrappers
  import opened LineValues

  datatype Trigram = Trigram(name: string, attribute: string, element: string, lines: seq<int>)

  const Heaven: Trigram := Trigram("Heaven", "Strong", "Metal", [1, 1, 1])
  const Earth: Trigram := Trigram("Earth", "Receptive", "Earth", [0, 0, 0])

  /** TRIGRAMS in key order. */
  const Trigrams: seq<Trigram> := [Heaven, Earth]

  /** The trigram's lines.every((line, i) => line === lines[i]); an index past the input is undefined and never equal. */
  predicate Matches(t: Trigram, lines: seq<int>)
  {
    forall i :: 0 <= i < |t.lines| ==> i < |lines| && t.lines[i] == lines[i]
  }

  /** The first of the candidates matching the lines. */
  function FindFirst(candidates: seq<Trigram>, lines: seq<int>): (r: Option<Trigram>)
    ensures r.Some? ==> r.value in candidates && Matches(r.value, lines)
    ensures r.Some? ==>
      exists k :: 0 <= k < |candidates| && candidates[k] == r.value && forall j :: 0 <= j < k ==> !Matches(candidates[j], lines)
    ensures r.None? ==> forall k :: 0 <= k < |candidates| ==> !Matches(candidates[k], lines)
  {
    if candidates == [] then None
    else if Matches(candidates[0], lines) then Some(candidates[0])
    else FindFirst(candidates[1..], lines)
  }

  /** getTrigramData: the first trigram whose lines match, or null. */
  function GetTrigramData(lines: seq<int>): Option<Trigram>
  {
    FindFirst(Trigrams, lines)
  }

  lemma GetTrigramDataUnfold(lines: seq<int>)
    ensures GetTrigramData(lines)
         == if Matches(Heaven, lines) then Some(Heaven) else if Matches(Earth, lines) then Some(Earth) else None
  {
    assert Trigrams[1..] == [Earth] && [Earth][1..] == [];
    assert FindFirst([Earth], lines) == if Matches(Earth, lines) then Some(Earth) else None;
  }

  /** A three-line trigram matches exactly the inputs whose first three lines are its own. */
  lemma MatchesExactly(t: Trigram, lines: seq<int>)
    requires |t.lines| == 3
    ensures Matches(t, lines) <==> |lines| >= 3 && lines[..3] == t.lines
  {
    if Matches(t, lines) {
      var top := t.lines[2];
      assert 2 < |lines| && top == lines[2];
      assert lines[..3] == t.lines;
    }
    if |lines| >= 3 && lines[..3] == t.lines {
      forall i | 0 <= i < 3
        ensures t.lines[i] == lines[i]
      {
        assert lines[..3][i] == lines[i];
      }
    }
  }

  /**
   * Lines starting 1, 1, 1 give Heaven and lines starting 0, 0, 0 give
   * Earth; every other input gives null.  Only the first three lines are
   * looked at.
   */
  lemma GetTrigramDataExact(lines: seq<int>)
    ensures |lines| >= 3 && lines[..3] == [1, 1, 1] ==> GetTrigramData(lines) == Some(Heaven)
    ensures |lines| >= 3 && lines[..3] == [0, 0, 0] ==> GetTrigramData(lines) == Some(Earth)
    ensures GetTrigramData(lines).Some? <==> |lines| >= 3 && (lines[..3] == [1, 1, 1] || lines[..3] == [0, 0, 0])
    ensures |lines| >= 3 ==> GetTrigramData(lines) == GetTrigramData(lines[..3])
  {
    GetTrigramDataUnfold(lines);
    MatchesExactly(Heaven, lines);
    MatchesExactly(Earth, lines);
    if |lines| >= 3 {
      var first := lines[..3];
      assert first[..3] == first;
      GetTrigramDataUnfold(first);
      MatchesExactly(Heaven, first);
      MatchesExactly(Earth, first);
    }
  }

  /** splitHexagramToTrigrams: lines.slice(0, 3) and lines.slice(3), labelled upper and lower. */
  function SplitHexagramToTrigrams(lines: seq<int>): (halves: (seq<int>, seq<int>))
    ensures halves.0 + halves.1 == lines
    ensures |halves.0| == if |lines| < 3 then |lines| else 3
  {
    (PyTake(lines, 3), PyDrop(lines, 3))
  }
}
