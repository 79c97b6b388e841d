/**
 * The saved-readings list of frontend/src/components/ReadingsHistory.tsx:
 * loading the list from storage on mount, the two-step delete (confirm,
 * then delete by index) and the title and subtitle shown for an entry.
 */
module FrontendReadingsHistory {
  import opened Wrappers
  import opened Text

  /** A hexagram as the list reads it; a missing name is "". */
  datatype HexagramInfo = HexagramInfo(number: int, name: string)

  /** The parts of a stored reading the list reads: reading, relating_hexagram and hexagram_number. */
  datatype StoredReading = StoredReading(primary: Option<HexagramInfo>, relating: Option<HexagramInfo>, hexagramNumber: Option<int>)

  datatype SavedReading = SavedReading(timestamp: int, reading: StoredReading)

  /** A storage key: not set (or empty), set to text that does not parse, or set to a list. */
  datatype Stored<T> = Absent | Corrupt | Present(value: T)

  datatype DisplayInfo = DisplayInfo(title: string, subtitle: string)

  /** savedReadings.filter((_, index) => index !== k) */
  function WithoutIndex<T>(s: seq<T>, k: int): seq<T>
  {
    if s == [] then []
    else WithoutIndex(s[..|s| - 1], k) + (if |s| - 1 != k then [s[|s| - 1]] else [])
  }

  /** Filtering out index k removes exactly element k when it exists and nothing otherwise. */
  lemma {:induction false} WithoutIndexExact<T>(s: seq<T>, k: int)
    ensures WithoutIndex(s, k) == if 0 <= k < |s| then s[..k] + s[k + 1..] else s
    ensures |WithoutIndex(s, k)| == if 0 <= k < |s| then |s| - 1 else |s|
  {
    if s != [] {
      var last := |s| - 1;
      var init := s[..last];
      WithoutIndexExact(init, k);
      assert WithoutIndex(s, k) == WithoutIndex(init, k) + (if last != k then [s[last]] else []);
      if k == last {
        assert WithoutIndex(init, k) == init;
        assert s[k + 1..] == [] && s[..k] == init;
      } else if 0 <= k < last {
        assert WithoutIndex(init, k) == init[..k] + init[k + 1..];
        assert init[..k] == s[..k];
        assert init[k + 1..] + [s[last]] == s[k + 1..];
      } else {
        assert WithoutIndex(init, k) == init;
        assert init + [s[last]] == s;
      }
    }
  }

  /** "Hexagram N", followed by ": name" when the name is not empty. */
  function HexagramTitle(n: int, name: string): string
  {
    "Hexagram " + IntToString(n) + NameSuffix(name)
  }

  function NameSuffix(name: string): string
  {
    if name != "" then ": " + name else ""
  }

  lemma NameSuffixInjective(a: string, b: string)
    requires NameSuffix(a) == NameSuffix(b)
    ensures a == b
  {
    if a != "" {
      assert NameSuffix(a)[2..] == a;
    }
    if b != "" {
      assert NameSuffix(b)[2..] == b;
    }
  }

  /** What follows "Hexagram " in a title. */
  lemma TitleTail(n: nat, name: string)
    ensures |HexagramTitle(n, name)| >= 9
    ensures HexagramTitle(n, name)[9..] == NatToString(n) + NameSuffix(name)
  {
    var t := NatToString(n) + NameSuffix(name);
    assert HexagramTitle(n, name) == "Hexagram " + t;
  }

  predicate IsDigit(c: char) { '0' <= c <= '9' }

  /** The run of decimal digits a text starts with. */
  function DigitPrefix(s: string): string
  {
    if s == [] || !IsDigit(s[0]) then [] else [s[0]] + DigitPrefix(s[1..])
  }

  lemma {:induction false} DigitPrefixOf(d: string, x: string)
    requires forall i :: 0 <= i < |d| ==> IsDigit(d[i])
    requires x == [] || !IsDigit(x[0])
    ensures DigitPrefix(d + x) == d
  {
    if d == [] {
      assert d + x == x;
    } else {
      assert (d + x)[1..] == d[1..] + x;
      DigitPrefixOf(d[1..], x);
    }
  }

  /** A title names its hexagram: two titles agree only for the same number and name. */
  lemma HexagramTitleIdentifies(m: nat, a: string, n: nat, b: string)
    requires HexagramTitle(m, a) == HexagramTitle(n, b)
    ensures m == n && a == b
  {
    TitleTail(m, a);
    TitleTail(n, b);
    var dm, dn := NatToString(m), NatToString(n);
    assert dm + NameSuffix(a) == dn + NameSuffix(b);
    DigitPrefixOf(dm, NameSuffix(a));
    DigitPrefixOf(dn, NameSuffix(b));
    NatToStringInjective(m, n);
    assert (dm + NameSuffix(a))[|dm|..] == NameSuffix(a);
    assert (dn + NameSuffix(b))[|dn|..] == NameSuffix(b);
    NameSuffixInjective(a, b);
  }

  /**
   * getReadingDisplayInfo: the primary hexagram's title, with a "Changing
   * to" subtitle when a relating hexagram is present; without a primary,
   * the legacy hexagram_number when it is set and not 0, else "Unknown
   * Reading".
   */
  function GetReadingDisplayInfo(reading: StoredReading): (info: DisplayInfo)
    ensures info.subtitle != "" <==> reading.primary.Some? && reading.relating.Some?
    ensures reading.primary.Some? && reading.relating.Some? ==>
      info.subtitle == "Changing to " + HexagramTitle(reading.relating.value.number, reading.relating.value.name)
    ensures reading.primary.Some? ==> info.title == HexagramTitle(reading.primary.value.number, reading.primary.value.name)
    ensures reading.primary.None? && reading.hexagramNumber.Some? && reading.hexagramNumber.value != 0
            ==> info.title == HexagramTitle(reading.hexagramNumber.value, "")
    ensures reading.primary.None? && (reading.hexagramNumber.None? || reading.hexagramNumber.value == 0)
            ==> info == DisplayInfo("Unknown Reading", "")
  {
    var title := "Unknown Reading";
    if reading.primary.Some? then
      var primary := reading.primary.value;
      var subtitle :=
        if reading.relating.Some? then
          var transformed := reading.relating.value;
          "Changing to " + HexagramTitle(transformed.number, transformed.name)
        else "";
      DisplayInfo(HexagramTitle(primary.number, primary.name), subtitle)
    else if reading.hexagramNumber.Some? && reading.hexagramNumber.value != 0 then
      DisplayInfo("Hexagram " + IntToString(reading.hexagramNumber.value), "")
    else DisplayInfo(title, "")
  }

  /** Entries whose primary hexagrams differ in number or name are shown under different titles. */
  lemma DisplayTitlesDistinguish(r1: StoredReading, r2: StoredReading)
    requires r1.primary.Some? && r2.primary.Some?
    requires r1.primary.value.number >= 0 && r2.primary.value.number >= 0
    requires r1.primary != r2.primary
    ensures GetReadingDisplayInfo(r1).title != GetReadingDisplayInfo(r2).title
  {
    var p1, p2 := r1.primary.value, r2.primary.value;
    if GetReadingDisplayInfo(r1).title == GetReadingDisplayInfo(r2).title {
      HexagramTitleIdentifies(p1.number, p1.name, p2.number, p2.name);
    }
  }

  /** Two readings that change to different hexagrams show different subtitles. */
  lemma SubtitlesDistinguish(r1: StoredReading, r2: StoredReading)
    requires r1.primary.Some? && r2.primary.Some? && r1.relating.Some? && r2.relating.Some?
    requires r1.relating.value.number >= 0 && r2.relating.value.number >= 0
    requires r1.relating != r2.relating
    ensures GetReadingDisplayInfo(r1).subtitle != GetReadingDisplayInfo(r2).subtitle
  {
    var t1, t2 := r1.relating.value, r2.relating.value;
    var s1, s2 := GetReadingDisplayInfo(r1).subtitle, GetReadingDisplayInfo(r2).subtitle;
    if s1 == s2 {
      assert s1[12..] == HexagramTitle(t1.number, t1.name);
      assert s2[12..] == HexagramTitle(t2.number, t2.name);
      HexagramTitleIdentifies(t1.number, t1.name, t2.number, t2.name);
    }
  }

  /** The list's state together with the saved-readings storage key. */
  class ReadingsHistory {
    var savedReadings: seq<SavedReading>
    var readingToDelete: Option<int>
    var alertOpen: bool
    var storage: Stored<seq<SavedReading>>

    /** Mounting: the stored list when it parses; unparsable data is removed from storage and the list stays empty. */
    constructor(stored: Stored<seq<SavedReading>>)
      ensures savedReadings == if stored.Present? then stored.value else []
      ensures storage == if stored.Corrupt? then Absent else stored
      ensures readingToDelete == None && !alertOpen
    {
      savedReadings := [];
      readingToDelete := None;
      alertOpen := false;
      storage := stored;
      match stored
      case Present(parsed) =>
        savedReadings := parsed;
      case Corrupt =>
        storage := Absent;
      case Absent =>
    }

    /** confirmDelete: remembers the index and opens the dialog. */
    method ConfirmDelete(index: int)
      modifies this
      ensures readingToDelete == Some(index) && alertOpen
      ensures savedReadings == old(savedReadings) && storage == old(storage)
    {
      readingToDelete := Some(index);
      alertOpen := true;
    }

    /**
     * handleDeleteReading: without a remembered index nothing happens;
     * otherwise the entry at that index is filtered out, the new list is
     * written to storage, and the index and dialog are reset.
     */
    method HandleDeleteReading()
      modifies this
      ensures old(readingToDelete).None? ==>
        savedReadings == old(savedReadings) && storage == old(storage) && readingToDelete == None && alertOpen == old(alertOpen)
      ensures old(readingToDelete).Some? ==>
        savedReadings == WithoutIndex(old(savedReadings), old(readingToDelete).value)
        && storage == Present(savedReadings) && readingToDelete == None && !alertOpen
    {
      if readingToDelete.Some? {
        var updatedReadings := WithoutIndex(savedReadings, readingToDelete.value);
        savedReadings := updatedReadings;
        storage := Present(updatedReadings);
        readingToDelete := None;
        alertOpen := false;
      }
    }
  }
}
