/**
 * The text ReadingInterpreter of iching/interpreter.py: the judgment of a
 * hexagram, or the texts of its changing lines joined by newlines.  Its
 * loader is a stub, so the table it builds is empty.
 */
module IchingInterpreter {
  import opened Wrappers
  import Text

  /** One hexagram's entry: its judgment, if present, and its line texts keyed by str(n). */
  datatype TextReading = TextReading(judgment: Option<string>, lines: map<string, string>)

  /** The texts of the listed lines that the entry has, in listed order. */
  function LineTexts(lines: map<string, string>, changingLines: seq<int>): (texts: seq<string>)
    ensures |texts| <= |changingLines|
  {
    if changingLines == [] then []
    else
      var before := LineTexts(lines, changingLines[..|changingLines| - 1]);
      var key := Text.IntToString(changingLines[|changingLines| - 1]);
      if key in lines then before + [lines[key]] else before
  }

  /** t is the text of one of the listed lines. */
  predicate ListedText(lines: map<string, string>, changingLines: seq<int>, t: string)
  {
    exists j :: 0 <= j < |changingLines| && Text.IntToString(changingLines[j]) in lines
      && lines[Text.IntToString(changingLines[j])] == t
  }

  /** Every text comes from a listed line. */
  lemma {:induction false} LineTextsListed(lines: map<string, string>, changingLines: seq<int>)
    ensures forall t :: t in LineTexts(lines, changingLines) ==> ListedText(lines, changingLines, t)
  {
    if changingLines != [] {
      var init := changingLines[..|changingLines| - 1];
      LineTextsListed(lines, init);
      forall t | t in LineTexts(lines, changingLines)
        ensures ListedText(lines, changingLines, t)
      {
        if t in LineTexts(lines, init) {
          var j :| 0 <= j < |init| && Text.IntToString(init[j]) in lines && lines[Text.IntToString(init[j])] == t;
          assert changingLines[j] == init[j];
        } else {
          assert Text.IntToString(changingLines[|changingLines| - 1]) in lines;
        }
      }
    }
  }

  /** The texts of the listed lines, one per listed line, in listed order. */
  function AllTexts(lines: map<string, string>, changingLines: seq<int>): seq<string>
    requires forall j :: 0 <= j < |changingLines| ==> Text.IntToString(changingLines[j]) in lines
  {
    seq(|changingLines|, j requires 0 <= j < |changingLines| => lines[Text.IntToString(changingLines[j])])
  }

  /** When every listed line has a text, they all appear. */
  lemma {:induction false} LineTextsAll(lines: map<string, string>, changingLines: seq<int>)
    requires forall j :: 0 <= j < |changingLines| ==> Text.IntToString(changingLines[j]) in lines
    ensures LineTexts(lines, changingLines) == AllTexts(lines, changingLines)
  {
    if changingLines != [] {
      var n := |changingLines| - 1;
      var init := changingLines[..n];
      LineTextsAll(lines, init);
      var key := Text.IntToString(changingLines[n]);
      assert key in lines;
      assert LineTexts(lines, changingLines) == LineTexts(lines, init) + [lines[key]];
      AllTextsSnoc(lines, changingLines);
    }
  }

  lemma AllTextsSnoc(lines: map<string, string>, changingLines: seq<int>)
    requires changingLines != []
    requires forall j :: 0 <= j < |changingLines| ==> Text.IntToString(changingLines[j]) in lines
    ensures var n := |changingLines| - 1;
      AllTexts(lines, changingLines) == AllTexts(lines, changingLines[..n]) + [lines[Text.IntToString(changingLines[n])]]
  {
    var n := |changingLines| - 1;
    var init := changingLines[..n];
    var a, b := AllTexts(lines, changingLines), AllTexts(lines, init) + [lines[Text.IntToString(changingLines[n])]];
    assert |a| == |b|;
    forall i | 0 <= i < |a|
      ensures a[i] == b[i]
    {
      if i < n {
        assert init[i] == changingLines[i];
      }
    }
  }

  /**
   * Every text comes from a listed line, and when every listed line has a
   * text they all appear, one per listed line, in listed order.
   */
  lemma LineTextsExact(lines: map<string, string>, changingLines: seq<int>)
    ensures forall t :: t in LineTexts(lines, changingLines) ==> ListedText(lines, changingLines, t)
    ensures (forall j :: 0 <= j < |changingLines| ==> Text.IntToString(changingLines[j]) in lines) ==>
      LineTexts(lines, changingLines)
        == seq(|changingLines|, j requires 0 <= j < |changingLines| => lines[Text.IntToString(changingLines[j])])
  {
    LineTextsListed(lines, changingLines);
    if forall j :: 0 <= j < |changingLines| ==> Text.IntToString(changingLines[j]) in lines {
      LineTextsAll(lines, changingLines);
    }
  }

  /** What get_reading answers for the given table. */
  function Interpretation(readings: map<int, TextReading>, hexagramNumber: int, changingLines: seq<int>): string
  {
    if hexagramNumber !in readings then "Invalid hexagram number"
    else
      var reading := readings[hexagramNumber];
      if changingLines == [] then (if reading.judgment.Some? then reading.judgment.value else "")
      else Text.Join(LineTexts(reading.lines, changingLines), "\n")
  }

  class ReadingInterpreter {
    var readings: map<int, TextReading>

    /** The constructor runs _load_readings, which stores nothing. */
    constructor()
      ensures readings == map[]
    {
      readings := map[];
    }

    /**
     * get_reading: "Invalid hexagram number" for an unknown number, the
     * judgment without changing lines, otherwise the listed lines' texts
     * that exist, newline-joined.  The table is only read.
     */
    method GetReading(hexagramNumber: int, changingLines: seq<int>) returns (r: string)
      ensures r == Interpretation(readings, hexagramNumber, changingLines)
      ensures hexagramNumber !in readings ==> r == "Invalid hexagram number"
    {
      if hexagramNumber !in readings {
        return "Invalid hexagram number";
      }
      var reading := readings[hexagramNumber];
      if changingLines == [] {
        r := if reading.judgment.Some? then reading.judgment.value else "";
        return;
      }
      var lineReadings: seq<string> := [];
      var linesDict := reading.lines;
      for k := 0 to |changingLines|
        invariant lineReadings == LineTexts(linesDict, changingLines[..k])
      {
        assert changingLines[..k + 1][..k] == changingLines[..k];
        var lineKey := Text.IntToString(changingLines[k]);
        if lineKey in linesDict {
          lineReadings := lineReadings + [linesDict[lineKey]];
        }
      }
      assert changingLines[..|changingLines|] == changingLines;
      r := Text.Join(lineReadings, "\n");
    }
  }
}
