/**
 * The saved-readings list of packages/frontend/src/components/ReadingsHistory.tsx:
 * on mount the stored list is sorted in place, newest first; a delete
 * splices the remembered index out of a copy of the list; entries are shown
 * under a title built from whichever hexagram the entry carries.
 */
module PackagesReadingsHistory {
  import opened Wrappers
  import opened Text
  import F = FrontendReadingsHistory

  /** The parts of a stored reading the list reads: hexagram, primary_hexagram and related_hexagram. */
  datatype StoredReading = StoredReading(
    hexagram: Option<F.HexagramInfo>,
    primaryHexagram: Option<F.HexagramInfo>,
    relatedHexagram: Option<F.HexagramInfo>)

  datatype SavedReading = SavedReading(timestamp: int, reading: StoredReading)

  /** Timestamps never increase along the list. */
  predicate NewestFirst(s: seq<SavedReading>)
  {
    forall i, j :: 0 <= i < j < |s| ==> s[i].timestamp >= s[j].timestamp
  }

  /**
   * parsedData.sort((a, b) => b.timestamp - a.timestamp), in place: the
   * same entries, newest first.
   */
  method SortNewestFirst(a: array<SavedReading>)
    modifies a
    ensures NewestFirst(a[..])
    ensures multiset(a[..]) == old(multiset(a[..]))
  {
    var i := 0;
    while i < a.Length
      invariant 0 <= i <= a.Length
      invariant forall x, y :: 0 <= x < y < i ==> a[x].timestamp >= a[y].timestamp
      invariant multiset(a[..]) == old(multiset(a[..]))
    {
      InsertNewest(a, i);
      i := i + 1;
    }
  }

  /** Moves a[i] towards the front past every older entry, so that a[..i + 1] is newest first. */
  method InsertNewest(a: array<SavedReading>, i: int)
    requires 0 <= i < a.Length
    requires forall x, y :: 0 <= x < y < i ==> a[x].timestamp >= a[y].timestamp
    modifies a
    ensures forall x, y :: 0 <= x < y <= i ==> a[x].timestamp >= a[y].timestamp
    ensures multiset(a[..]) == old(multiset(a[..]))
  {
    var j := i;
    while j > 0 && a[j - 1].timestamp < a[j].timestamp
      invariant 0 <= j <= i
      invariant SortedAround(a[..], i, j)
      invariant multiset(a[..]) == old(multiset(a[..]))
    {
      ghost var before := a[..];
      a[j - 1], a[j] := a[j], a[j - 1];
      SwapStep(before, a[..], i, j);
      j := j - 1;
    }
    SortedAroundDone(a[..], i, j);
  }

  /** Once the entry at j is no newer than the one before it, s[..i + 1] is newest first. */
  lemma SortedAroundDone(s: seq<SavedReading>, i: int, j: int)
    requires 0 <= j <= i < |s|
    requires SortedAround(s, i, j) && (j == 0 || s[j - 1].timestamp >= s[j].timestamp)
    ensures forall x, y :: 0 <= x < y <= i ==> s[x].timestamp >= s[y].timestamp
  {
  }

  /**
   * s[..i + 1] is newest first except for the entry at j, which is newer
   * than everything after it.
   */
  ghost predicate SortedAround(s: seq<SavedReading>, i: int, j: int)
    requires 0 <= j <= i < |s|
  {
    (forall x, y :: 0 <= x < y <= i && x != j && y != j ==> s[x].timestamp >= s[y].timestamp)
    && (forall y :: j < y <= i ==> s[j].timestamp > s[y].timestamp)
  }

  /** Swapping the entry at j with an older one before it moves the gap one place towards the front. */
  lemma SwapStep(s: seq<SavedReading>, t: seq<SavedReading>, i: int, j: int)
    requires 0 < j <= i < |s|
    requires SortedAround(s, i, j) && s[j - 1].timestamp < s[j].timestamp
    requires t == s[j - 1 := s[j]][j := s[j - 1]]
    ensures SortedAround(t, i, j - 1)
    ensures multiset(t) == multiset(s)
  {
  }

  /**
   * updatedReadings.splice(start, 1): a negative start counts from the end
   * (from the front when it reaches past it); a start past the end removes
   * nothing.
   */
  function Splice<T>(s: seq<T>, start: int): (r: seq<T>)
    ensures |r| == if s != [] && start < |s| then |s| - 1 else |s|
  {
    var actual := SpliceStart(|s|, start);
    if actual < |s| then s[..actual] + s[actual + 1..] else s
  }

  /** Where splice starts in a list of the given length: a negative start counts from the end, and the start is clamped to the list. */
  function SpliceStart(length: nat, start: int): (actual: nat)
    ensures actual <= length
    ensures 0 <= start ==> actual == if start < length then start else length
    ensures start < 0 && 0 <= length + start ==> actual == length + start
    ensures length + start < 0 ==> actual == 0
  {
    if start < 0 then (if length + start < 0 then 0 else length + start) else (if start < length then start else length)
  }

  /**
   * For a non-negative index the splice removes what the filter of the
   * other history list removes; a negative index removes an entry counted
   * from the end, where the filter removes nothing.
   */
  lemma SpliceAgreesWithFilter<T>(s: seq<T>, k: int)
    ensures 0 <= k ==> Splice(s, k) == F.WithoutIndex(s, k)
    ensures -|s| <= k < 0 ==> Splice(s, k) == F.WithoutIndex(s, |s| + k)
    ensures k < -|s| ==> Splice(s, k) == F.WithoutIndex(s, 0)
    ensures k < 0 ==> F.WithoutIndex(s, k) == s
  {
    if 0 <= k {
      SpliceFront(s, k);
    } else {
      F.WithoutIndexExact(s, k);
      if -|s| <= k {
        SpliceBack(s, k);
      } else {
        SpliceBeyond(s, k);
      }
    }
  }

  lemma SpliceFront<T>(s: seq<T>, k: int)
    requires 0 <= k
    ensures Splice(s, k) == F.WithoutIndex(s, k)
  {
    F.WithoutIndexExact(s, k);
  }

  lemma SpliceBack<T>(s: seq<T>, k: int)
    requires -|s| <= k < 0
    ensures Splice(s, k) == F.WithoutIndex(s, |s| + k)
  {
    F.WithoutIndexExact(s, |s| + k);
  }

  lemma SpliceBeyond<T>(s: seq<T>, k: int)
    requires k < -|s|
    ensures Splice(s, k) == F.WithoutIndex(s, 0)
  {
    F.WithoutIndexExact(s, 0);
    assert SpliceStart(|s|, k) == 0;
  }

  datatype DisplayInfo = DisplayInfo(title: string, subtitle: string)

  /** The subtitle's text; `name || ''` keeps the ": " even for an empty name. */
  function ChangingSubtitle(n: int, name: string): string
  {
    "Changing to Hexagram " + IntToString(n) + ": " + name
  }

  /** The subtitle names its hexagram: equal subtitles mean the same number and name. */
  lemma ChangingSubtitleIdentifies(m: nat, a: string, n: nat, b: string)
    requires ChangingSubtitle(m, a) == ChangingSubtitle(n, b)
    ensures m == n && a == b
  {
    var tm := SubtitleTail(m, a);
    var tn := SubtitleTail(n, b);
    var dm, dn := NatToString(m), NatToString(n);
    F.DigitPrefixOf(dm, ": " + a);
    F.DigitPrefixOf(dn, ": " + b);
    NatToStringInjective(m, n);
    assert tm[|dm| + 2..] == a;
    assert tn[|dn| + 2..] == b;
  }

  /** What follows "Changing to Hexagram " in a subtitle. */
  lemma SubtitleTail(n: nat, name: string) returns (tail: string)
    ensures tail == NatToString(n) + (": " + name)
    ensures ChangingSubtitle(n, name)[21..] == tail
  {
    tail := NatToString(n) + (": " + name);
    assert ChangingSubtitle(n, name) == "Changing to Hexagram " + tail;
  }

  /** The hexagram the title is taken from: hexagram when its number is set and not 0, else primary_hexagram. */
  function ShownHexagram(reading: StoredReading): Option<F.HexagramInfo>
  {
    if reading.hexagram.Some? && reading.hexagram.value.number != 0 then reading.hexagram
    else reading.primaryHexagram
  }

  /**
   * getReadingDisplayInfo: "Unknown" for no reading; otherwise the title of
   * the shown hexagram, or the bare "Hexagram"; a subtitle only when the
   * title comes from primary_hexagram and related_hexagram is present.
   */
  function GetReadingDisplayInfo(reading: Option<StoredReading>): (info: DisplayInfo)
    ensures reading.None? ==> info == DisplayInfo("Unknown", "")
    ensures reading.Some? && ShownHexagram(reading.value).Some? ==>
      info.title == F.HexagramTitle(ShownHexagram(reading.value).value.number, ShownHexagram(reading.value).value.name)
    ensures reading.Some? && ShownHexagram(reading.value).None? ==> info == DisplayInfo("Hexagram", "")
    ensures info.subtitle != "" <==>
      reading.Some? && ShownHexagram(reading.value) == reading.value.primaryHexagram
      && !(reading.value.hexagram.Some? && reading.value.hexagram.value.number != 0)
      && reading.value.primaryHexagram.Some? && reading.value.relatedHexagram.Some?
    ensures reading.Some? ==>
      var r := reading.value;
      (!(r.hexagram.Some? && r.hexagram.value.number != 0) && r.primaryHexagram.Some? && r.relatedHexagram.Some?
       ==> info.subtitle == ChangingSubtitle(r.relatedHexagram.value.number, r.relatedHexagram.value.name))
  {
    if reading.None? then DisplayInfo("Unknown", "")
    else
      var r := reading.value;
      if r.hexagram.Some? && r.hexagram.value.number != 0 then
        DisplayInfo(F.HexagramTitle(r.hexagram.value.number, r.hexagram.value.name), "")
      else if r.primaryHexagram.Some? then
        var subtitle :=
          if r.relatedHexagram.Some? then
            ChangingSubtitle(r.relatedHexagram.value.number, r.relatedHexagram.value.name)
          else "";
        DisplayInfo(F.HexagramTitle(r.primaryHexagram.value.number, r.primaryHexagram.value.name), subtitle)
      else DisplayInfo("Hexagram", "")
  }

  /** A title names its hexagram: readings with the same title show the same hexagram. */
  lemma DisplayTitleIdentifies(r1: StoredReading, r2: StoredReading)
    requires ShownHexagram(r1).Some? && ShownHexagram(r2).Some?
    requires ShownHexagram(r1).value.number >= 0 && ShownHexagram(r2).value.number >= 0
    requires GetReadingDisplayInfo(Some(r1)).title == GetReadingDisplayInfo(Some(r2)).title
    ensures ShownHexagram(r1) == ShownHexagram(r2)
  {
    var h1, h2 := ShownHexagram(r1).value, ShownHexagram(r2).value;
    F.HexagramTitleIdentifies(h1.number, h1.name, h2.number, h2.name);
  }

  /** A subtitle names its related hexagram: equal subtitles mean the same number and name. */
  lemma SubtitleIdentifies(r1: StoredReading, r2: StoredReading)
    requires GetReadingDisplayInfo(Some(r1)).subtitle != ""
    requires GetReadingDisplayInfo(Some(r1)).subtitle == GetReadingDisplayInfo(Some(r2)).subtitle
    requires r1.relatedHexagram.Some? && r1.relatedHexagram.value.number >= 0
    requires r2.relatedHexagram.Some? && r2.relatedHexagram.value.number >= 0
    ensures r1.relatedHexagram == r2.relatedHexagram
  {
    var h1, h2 := r1.relatedHexagram.value, r2.relatedHexagram.value;
    ChangingSubtitleIdentifies(h1.number, h1.name, h2.number, h2.name);
  }

  /** The list's state; the storage key is written by deletes only. */
  class ReadingsHistory {
    var savedReadings: seq<SavedReading>
    var readingToDelete: Option<int>
    var alertOpen: bool
    var storage: F.Stored<seq<SavedReading>>

    /**
     * Mounting: a stored list is sorted newest first; unparsable data is
     * only reported, so the list stays empty and storage keeps it.
     */
    constructor(stored: F.Stored<seq<SavedReading>>)
      ensures stored.Present? ==> NewestFirst(savedReadings) && multiset(savedReadings) == multiset(stored.value)
      ensures !stored.Present? ==> savedReadings == []
      ensures storage == stored
      ensures readingToDelete == None && !alertOpen
    {
      savedReadings := [];
      readingToDelete := None;
      alertOpen := false;
      storage := stored;
      if stored.Present? {
        var parsedData := new SavedReading[|stored.value|](i requires 0 <= i < |stored.value| => stored.value[i]);
        assert parsedData[..] == stored.value;
        SortNewestFirst(parsedData);
        savedReadings := parsedData[..];
      }
    }

    /** confirmDelete: remembers the index and opens the dialog. */
    method ConfirmDelete(index: int)
      modifies this
      ensures readingToDelete == Some(index) && alertOpen
      ensures savedReadings == old(savedReadings) && storage == old(storage)
    {
      readingToDelete := Some(index);
      alertOpen := true;
    }

    /**
     * handleDeleteReading: without a remembered index nothing happens;
     * otherwise a copy of the list loses the entry at that index, becomes
     * the list and is written to storage, and the index and dialog are reset.
     */
    method HandleDeleteReading()
      modifies this
      ensures old(readingToDelete).None? ==>
        savedReadings == old(savedReadings) && storage == old(storage) && readingToDelete == None && alertOpen == old(alertOpen)
      ensures old(readingToDelete).Some? ==>
        savedReadings == Splice(old(savedReadings), old(readingToDelete).value)
        && storage == F.Present(savedReadings) && readingToDelete == None && !alertOpen
    {
      if readingToDelete.Some? {
        var updatedReadings := savedReadings;
        updatedReadings := Splice(updatedReadings, readingToDelete.value);
        savedReadings := updatedReadings;
        storage := F.Present(updatedReadings);
        readingToDelete := None;
        alertOpen := false;
      }
    }
  }
}
