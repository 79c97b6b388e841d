/**
 * The reading hook of frontend/src/hooks/useReading.ts: the current
 * reading, loading flag, error and casting mode, together with the two
 * storage keys it writes (the current reading and the saved history, kept
 * to the 20 newest entries).
 */
module FrontendUseReading {
  import opened Wrappers
  import opened LineValues
  import opened FrontendReadingsHistory

  datatype Mode = Yarrow | Coins

  /** One history entry: when it was saved and the reading. */
  datatype HistoryEntry<R> = HistoryEntry(timestamp: int, reading: R)

  /** The most entries the history keeps. */
  const HistoryLimit: nat := 20

  /** What a failed cast throws: an Error with its message, or some other value. */
  datatype Thrown = ErrorObject(message: string) | OtherValue

  /** saveReadingToHistory on a parsed list: the new entry in front, cut to the limit. */
  function SaveToHistory<R>(history: seq<HistoryEntry<R>>, entry: HistoryEntry<R>): (saved: seq<HistoryEntry<R>>)
  {
    PyTake([entry] + history, HistoryLimit)
  }

  /**
   * The new entry comes first, the older ones follow in their order, and
   * only the oldest beyond the limit are dropped.
   */
  lemma SaveToHistoryShape<R>(history: seq<HistoryEntry<R>>, entry: HistoryEntry<R>)
    ensures var saved := SaveToHistory(history, entry);
      |saved| == if |history| < HistoryLimit then |history| + 1 else HistoryLimit
    ensures SaveToHistory(history, entry)[0] == entry
    ensures SaveToHistory(history, entry)[1..] == history[..|SaveToHistory(history, entry)| - 1]
  {
    var saved := SaveToHistory(history, entry);
    assert saved[1..] == history[..|saved| - 1];
  }

  /** The entries in reverse order. */
  function Reversed<T>(s: seq<T>): (r: seq<T>)
    ensures |r| == |s|
  {
    if s == [] then [] else Reversed(s[1..]) + [s[0]]
  }

  /** Saving the entries one after another, first entry first. */
  function SaveAll<R>(history: seq<HistoryEntry<R>>, entries: seq<HistoryEntry<R>>): seq<HistoryEntry<R>>
    decreases |entries|
  {
    if entries == [] then history else SaveAll(SaveToHistory(history, entries[0]), entries[1..])
  }

  lemma TakeOfTake<T>(a: seq<T>, b: seq<T>, n: nat)
    ensures PyTake(a + PyTake(b, n), n) == PyTake(a + b, n)
  {
    if |b| > n {
      assert (a + b[..n])[..n] == (a + b)[..n];
    }
  }

  /**
   * After any run of saves, the history holds the newest entries, newest
   * first, followed by the older history, and never more than the limit.
   */
  lemma {:induction false} SaveAllKeepsNewest<R>(history: seq<HistoryEntry<R>>, entries: seq<HistoryEntry<R>>)
    ensures SaveAll(history, entries) == if entries == [] then history else PyTake(Reversed(entries) + history, HistoryLimit)
    decreases |entries|
  {
    if entries != [] {
      var rest := entries[1..];
      SaveAllKeepsNewest(SaveToHistory(history, entries[0]), rest);
      if rest != [] {
        TakeOfTake(Reversed(rest), [entries[0]] + history, HistoryLimit);
        assert Reversed(rest) + ([entries[0]] + history) == Reversed(entries) + history;
      }
    }
  }

  /** The hook's state and the two storage keys it writes. */
  class ReadingHook<R> {
    var reading: Option<R>
    var isLoading: bool
    var error: Option<string>
    var mode: Mode
    /** The current-reading key. */
    var current: Stored<R>
    /** The saved-readings key. */
    var history: Stored<seq<HistoryEntry<R>>>

    /**
     * Mounting: the mode starts as yarrow; a stored current reading is
     * restored, and an unparsable one is removed.
     */
    constructor(storedCurrent: Stored<R>, storedHistory: Stored<seq<HistoryEntry<R>>>)
      ensures mode == Yarrow && !isLoading && error == None
      ensures reading == if storedCurrent.Present? then Some(storedCurrent.value) else None
      ensures current == if storedCurrent.Corrupt? then Absent else storedCurrent
      ensures history == storedHistory
    {
      reading := None;
      isLoading := false;
      error := None;
      mode := Yarrow;
      current := storedCurrent;
      history := storedHistory;
      match storedCurrent
      case Present(saved) =>
        reading := Some(saved);
      case Corrupt =>
        current := Absent;
      case Absent =>
    }

    /** saveReadingToHistory: a missing key counts as an empty list; unparsable history is left as it is. */
    method SaveReadingToHistory(readingData: R, now: int)
      modifies this
      ensures history == match old(history)
        case Absent => Present([HistoryEntry(now, readingData)])
        case Corrupt => Corrupt
        case Present(saved) => Present(SaveToHistory(saved, HistoryEntry(now, readingData)))
      ensures reading == old(reading) && isLoading == old(isLoading) && error == old(error)
      ensures mode == old(mode) && current == old(current)
    {
      match history
      case Absent =>
        assert [HistoryEntry(now, readingData)] + [] == [HistoryEntry(now, readingData)];
        history := Present(SaveToHistory([], HistoryEntry(now, readingData)));
      case Corrupt =>
      case Present(savedReadings) =>
        history := Present(SaveToHistory(savedReadings, HistoryEntry(now, readingData)));
    }

    /**
     * generate, with the outcome of the cast in the current mode and the
     * clock passed in.  A cast sets the reading, stores it as current and
     * records it in the history; a failure clears the reading and the
     * current key, sets the error and is thrown again.  Loading ends either
     * way, and the mode is unchanged.
     */
    method Generate(cast: Result<R, Thrown>, now: int) returns (r: Result<R, string>)
      modifies this
      ensures !isLoading && mode == old(mode)
      ensures cast.Ok? ==> r == Ok(cast.value) && reading == Some(cast.value) && current == Present(cast.value) && error == None
      ensures cast.Ok? ==> history == match old(history)
        case Absent => Present([HistoryEntry(now, cast.value)])
        case Corrupt => Corrupt
        case Present(saved) => Present(SaveToHistory(saved, HistoryEntry(now, cast.value)))
      ensures cast.Err? ==> r.Err? && error == Some(r.error) && reading == None && current == Absent && history == old(history)
      ensures cast.Err? ==> r.error == match cast.error
        case ErrorObject(message) => message
        case OtherValue => "Failed to generate reading"
    {
      isLoading := true;
      error := None;
      match cast {
        case Ok(data) =>
          reading := Some(data);
          current := Present(data);
          SaveReadingToHistory(data, now);
          r := Ok(data);
        case Err(thrown) =>
          var message := match thrown
            case ErrorObject(m) => m
            case OtherValue => "Failed to generate reading";
          error := Some(message);
          reading := None;
          current := Absent;
          r := Err(message);
      }
      isLoading := false;
    }

    /** changeCastingMode: only the mode changes. */
    method ChangeCastingMode(newMode: Mode)
      modifies this
      ensures mode == newMode
      ensures reading == old(reading) && isLoading == old(isLoading) && error == old(error)
      ensures current == old(current) && history == old(history)
    {
      mode := newMode;
    }

    /** loadReading: the reading becomes current, in state and in storage; the history is untouched. */
    method LoadReading(readingData: R)
      modifies this
      ensures reading == Some(readingData) && current == Present(readingData)
      ensures isLoading == old(isLoading) && error == old(error) && mode == old(mode) && history == old(history)
    {
      reading := Some(readingData);
      current := Present(readingData);
    }

    /** clearReading: no reading, no current key; the history is untouched. */
    method ClearReading()
      modifies this
      ensures reading == None && current == Absent
      ensures isLoading == old(isLoading) && error == old(error) && mode == old(mode) && history == old(history)
    {
      reading := None;
      current := Absent;
    }
  }
}
