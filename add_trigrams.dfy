/**
 * The trigram annotator of packages/core/src/add_trigrams.py: an element
 * string "Upper over Lower" is split on " over " and both names are looked
 * up among the eight trigrams; every hexagram whose element parses gains a
 * "trigrams" entry.
 */
module AddTrigrams {
  import opened Wrappers

  datatype Trigram = Trigram(name: string, attribute: string, chinese: string, element: string, image: string)

  datatype Trigrams = Trigrams(upper: Trigram, lower: Trigram)

  /** TRIGRAMS, keyed by element name. */
  const TrigramTable: map<string, Trigram> := map[
    "Heaven" := Trigram("Ch'ien", "Strong", "乾", "Heaven", "Heaven"),
    "Earth" := Trigram("K'un", "Yielding", "坤", "Earth", "Earth"),
    "Thunder" := Trigram("Chen", "Moving", "震", "Thunder", "Thunder"),
    "Water" := Trigram("K'an", "Dangerous", "坎", "Water", "Water"),
    "Mountain" := Trigram("Ken", "Still", "艮", "Mountain", "Mountain"),
    "Wind" := Trigram("Sun", "Gentle", "巽", "Wind", "Wind"),
    "Fire" := Trigram("Li", "Clinging", "離", "Fire", "Fire"),
    "Lake" := Trigram("Tui", "Joyous", "兌", "Lake", "Lake")]

  const Separator: string := " over "

  /** sep occurs in s at position i. */
  predicate OccursAt(s: string, sep: string, i: int)
  {
    0 <= i && i + |sep| <= |s| && s[i..i + |sep|] == sep
  }

  /** The first position from `from` on at which sep occurs in s, if any. */
  function FindFrom(s: string, sep: string, from: nat): (r: Option<nat>)
    requires sep != []
    ensures r.Some? ==> from <= r.value && OccursAt(s, sep, r.value)
    decreases |s| - from
  {
    if from + |sep| > |s| then None
    else if s[from..from + |sep|] == sep then Some(from)
    else FindFrom(s, sep, from + 1)
  }

  /** FindFrom finds the first occurrence, and finds nothing only when there is none. */
  lemma {:induction false} FindFromFirst(s: string, sep: string, from: nat)
    requires sep != []
    ensures FindFrom(s, sep, from).Some? ==> forall i :: from <= i < FindFrom(s, sep, from).value ==> !OccursAt(s, sep, i)
    ensures FindFrom(s, sep, from).None? <==> forall i :: from <= i ==> !OccursAt(s, sep, i)
    decreases |s| - from
  {
    if from + |sep| <= |s| && s[from..from + |sep|] != sep {
      FindFromFirst(s, sep, from + 1);
    }
  }

  /** str.split(sep): the pieces between the non-overlapping occurrences of sep, scanned left to right. */
  function Split(s: string, sep: string): (parts: seq<string>)
    requires sep != []
    ensures |parts| >= 1
    decreases |s|
  {
    match FindFrom(s, sep, 0)
    case None => [s]
    case Some(i) => [s[..i]] + Split(s[i + |sep|..], sep)
  }

  /** sep.join(parts) */
  function Join(parts: seq<string>, sep: string): string
  {
    if parts == [] then "" else if |parts| == 1 then parts[0] else parts[0] + sep + Join(parts[1..], sep)
  }

  lemma JoinCons(head: string, tail: seq<string>, sep: string)
    requires tail != []
    ensures Join([head] + tail, sep) == head + sep + Join(tail, sep)
  {
    assert ([head] + tail)[1..] == tail;
  }

  /** Cutting s around an occurrence of sep at i. */
  lemma CutAround(s: string, sep: string, i: int)
    requires OccursAt(s, sep, i)
    ensures s == s[..i] + sep + s[i + |sep|..]
  {
    assert s == s[..i] + s[i..i + |sep|] + s[i + |sep|..];
  }

  /** Joining the pieces with the separator gives the text back. */
  lemma {:induction false} SplitJoin(s: string, sep: string)
    requires sep != []
    ensures Join(Split(s, sep), sep) == s
    decreases |s|
  {
    var found := FindFrom(s, sep, 0);
    if found.Some? {
      var i := found.value;
      var rest := s[i + |sep|..];
      SplitJoin(rest, sep);
      JoinCons(s[..i], Split(rest, sep), sep);
      CutAround(s, sep, i);
    }
  }

  /** An occurrence of sep starts with sep's first character. */
  lemma OccursFirstChar(s: string, sep: string, i: int)
    requires sep != []
    ensures OccursAt(s, sep, i) ==> s[i] == sep[0]
  {
    if OccursAt(s, sep, i) {
      assert s[i..i + |sep|][0] == s[i];
    }
  }

  /** In a name followed by " over ", the first occurrence is right after the name. */
  lemma FindsAfterName(upper: string, rest: string)
    requires forall k :: 0 <= k < |upper| ==> upper[k] != ' '
    ensures FindFrom(upper + Separator + rest, Separator, 0) == Some(|upper|)
  {
    var s := upper + Separator + rest;
    forall i | 0 <= i < |upper|
      ensures !OccursAt(s, Separator, i)
    {
      OccursFirstChar(s, Separator, i);
      assert s[i] == upper[i];
    }
    assert s[|upper|..|upper| + |Separator|] == Separator;
    assert OccursAt(s, Separator, |upper|);
    FindFromFirst(s, Separator, 0);
    var found := FindFrom(s, Separator, 0);
    assert found.Some?;
    assert found.value >= |upper|;
  }

  /** A space-free text does not split at all. */
  lemma SplitsNotAtAll(lower: string)
    requires forall k :: 0 <= k < |lower| ==> lower[k] != ' '
    ensures Split(lower, Separator) == [lower]
  {
    forall i | 0 <= i
      ensures !OccursAt(lower, Separator, i)
    {
      OccursFirstChar(lower, Separator, i);
    }
    FindFromFirst(lower, Separator, 0);
    assert FindFrom(lower, Separator, 0) == None;
  }

  /** Two space-free names split apart at " over ". */
  lemma SplitTwoNames(upper: string, lower: string)
    requires forall k :: 0 <= k < |upper| ==> upper[k] != ' '
    requires forall k :: 0 <= k < |lower| ==> lower[k] != ' '
    ensures Split(upper + Separator + lower, Separator) == [upper, lower]
  {
    var s := upper + Separator + lower;
    FindsAfterName(upper, lower);
    SplitsNotAtAll(lower);
    assert s[..|upper|] == upper;
    assert s[|upper| + |Separator|..] == lower;
  }

  /**
   * get_trigrams_from_element: None unless the text splits into exactly
   * two parts naming known trigrams.
   */
  function GetTrigramsFromElement(elementStr: string): (r: Option<Trigrams>)
    ensures r.Some? <==> var parts := Split(elementStr, Separator);
      |parts| == 2 && parts[0] in TrigramTable && parts[1] in TrigramTable
    ensures r.Some? ==> var parts := Split(elementStr, Separator);
      r.value == Trigrams(TrigramTable[parts[0]], TrigramTable[parts[1]])
  {
    var parts := Split(elementStr, Separator);
    if |parts| != 2 then None
    else
      var upper, lower := parts[0], parts[1];
      if upper !in TrigramTable || lower !in TrigramTable then None
      else Some(Trigrams(TrigramTable[upper], TrigramTable[lower]))
  }

  /** Every "U over L" of two table names parses to those two trigrams, upper first. */
  lemma ParsesEveryPair(upper: string, lower: string)
    requires upper in TrigramTable && lower in TrigramTable
    ensures GetTrigramsFromElement(upper + Separator + lower) == Some(Trigrams(TrigramTable[upper], TrigramTable[lower]))
  {
    SplitTwoNames(upper, lower);
  }

  /** Text with no " over " at all is refused. */
  lemma RefusesSinglePart(s: string)
    requires forall i :: 0 <= i ==> !OccursAt(s, Separator, i)
    ensures GetTrigramsFromElement(s) == None
  {
    FindFromFirst(s, Separator, 0);
  }

  /** One record of readings.json: its "element" text, if any, its "trigrams", if any, and its other fields. */
  datatype HexagramEntry = HexagramEntry(element: Option<string>, trigrams: Option<Trigrams>, other: map<string, string>)

  /** The record after the loop body: "trigrams" set when the element parses, otherwise as it was. */
  function Annotate(entry: HexagramEntry): HexagramEntry
  {
    if entry.element.Some? && GetTrigramsFromElement(entry.element.value).Some? then
      entry.(trigrams := GetTrigramsFromElement(entry.element.value))
    else entry
  }

  predicate Parses(entry: HexagramEntry)
  {
    entry.element.Some? && GetTrigramsFromElement(entry.element.value).Some?
  }

  /** How many records have an element that parses. */
  function CountParsing(entries: seq<HexagramEntry>): (n: nat)
    ensures n <= |entries|
  {
    if entries == [] then 0
    else CountParsing(entries[..|entries| - 1]) + (if Parses(entries[|entries| - 1]) then 1 else 0)
  }

  /** The count is the full length exactly when every record parses. */
  lemma {:induction false} CountParsingAll(entries: seq<HexagramEntry>)
    ensures CountParsing(entries) == |entries| <==> forall i :: 0 <= i < |entries| ==> Parses(entries[i])
  {
    if entries != [] {
      var init := entries[..|entries| - 1];
      CountParsingAll(init);
      assert forall i :: 0 <= i < |init| ==> init[i] == entries[i];
      if forall i :: 0 <= i < |entries| ==> Parses(entries[i]) {
        assert Parses(entries[|init|]);
      }
    }
  }

  /**
   * The loop of main over the records read from readings.json: each record
   * annotated in place, in order, and modified_count the number that
   * gained trigrams.
   */
  method AddTrigramsToAll(readings: seq<HexagramEntry>) returns (updated: seq<HexagramEntry>, modifiedCount: nat)
    ensures |updated| == |readings|
    ensures forall i :: 0 <= i < |readings| ==> updated[i] == Annotate(readings[i])
    ensures modifiedCount == CountParsing(readings)
  {
    updated := readings;
    modifiedCount := 0;
    for i := 0 to |readings|
      invariant |updated| == |readings|
      invariant forall k :: 0 <= k < i ==> updated[k] == Annotate(readings[k])
      invariant forall k :: i <= k < |readings| ==> updated[k] == readings[k]
      invariant modifiedCount == CountParsing(readings[..i])
    {
      assert readings[..i + 1][..i] == readings[..i];
      var hexagram := updated[i];
      if hexagram.element.Some? {
        var trigrams := GetTrigramsFromElement(hexagram.element.value);
        if trigrams.Some? {
          updated := updated[i := hexagram.(trigrams := trigrams)];
          modifiedCount := modifiedCount + 1;
        }
      }
    }
    assert readings[..|readings|] == readings;
  }
}
