/**
 * The Hexagram class and the ReadingInterpreter of iching/core.py.  The
 * same two classes, line for line, make up backend/app/core/hexagram.py and
 * backend/app/core/interpreter.py, so this module models all three files.
 * Lines here are bits: 1 for yang, 0 for yin; changing lines are numbered
 * from 1.
 */
module IchingCore {
  import opened Wrappers
  import opened Draws
  import opened LineValues
  import Text

  /** The total of three coins, each 2 or 3. */
  function CoinTotal(coins: seq<Coin>): (total: int)
    requires |coins| == 3
    ensures IsLineValue(total)
  {
    Sum3(coins);
    Sum(coins)
  }

  /** The totals of six throws, bottom line first. */
  function Totals(throws: seq<seq<Coin>>): (totals: seq<int>)
    requires forall k :: 0 <= k < |throws| ==> |throws[k]| == 3
    ensures |totals| == |throws| && AllLineValues(totals)
    ensures forall k :: 0 <= k < |throws| ==> totals[k] == CoinTotal(throws[k])
  {
    seq(|throws|, k requires 0 <= k < |throws| => CoinTotal(throws[k]))
  }

  /** "".join(str(line) for line in reversed(lines)): the top line's digits first, the bottom line's last. */
  function JoinedReversed(lines: seq<int>): string
  {
    if lines == [] then "" else JoinedReversed(lines[1..]) + Text.IntToString(lines[0])
  }

  /** A non-empty string of the digits 0 and 1. */
  predicate IsBinaryDigits(s: string)
  {
    s != [] && forall i :: 0 <= i < |s| ==> s[i] == '0' || s[i] == '1'
  }

  /** The value of a string of binary digits, first digit most significant. */
  function BinaryDigitsValue(s: string): int
  {
    if s == [] then 0 else 2 * BinaryDigitsValue(s[..|s| - 1]) + (if s[|s| - 1] == '1' then 1 else 0)
  }

  /**
   * int(s, 2) on a string joined from str() of integers: an optional
   * leading minus sign and then binary digits; anything else raises.
   */
  function ParseBinary(s: string): Option<int>
  {
    if |s| > 0 && s[0] == '-' then
      if IsBinaryDigits(s[1..]) then Some(-BinaryDigitsValue(s[1..])) else None
    else if IsBinaryDigits(s) then Some(BinaryDigitsValue(s)) else None
  }

  /**
   * _calculate_hexagram_number: the lines reversed (top line first), their
   * str() joined and read by int(s, 2), plus one.
   */
  function CalculateHexagramNumber(lines: seq<int>): Result<int, string>
  {
    match ParseBinary(JoinedReversed(lines))
    case Some(d) => Ok(d + 1)
    case None => Err("invalid literal for int() with base 2")
  }

  /**
   * For lines that are bits the number is defined exactly when there are
   * lines (int('', 2) raises), and it is the lines read bottom line first
   * as the least significant bit, plus one.
   */
  lemma CalculateHexagramNumberBits(lines: seq<int>)
    requires IsBits(lines)
    ensures CalculateHexagramNumber(lines).Ok? <==> lines != []
    ensures CalculateHexagramNumber(lines).Ok? ==>
      CalculateHexagramNumber(lines).value == LsbValue(lines) + 1 && 1 <= CalculateHexagramNumber(lines).value <= Pow2(|lines|)
  {
    JoinedBitsValue(lines);
    LsbValueRange(lines);
  }

  /** One digit per bit, the last bit's first. */
  function BitDigits(bits: seq<int>): (s: string)
    ensures |s| == |bits| && forall i :: 0 <= i < |s| ==> s[i] == '0' || s[i] == '1'
  {
    if bits == [] then "" else BitDigits(bits[1..]) + [if bits[0] == 1 then '1' else '0']
  }

  /** For bits, the joined string is one digit per line, top line first. */
  lemma {:induction false} JoinedBits(lines: seq<int>)
    requires IsBits(lines)
    ensures JoinedReversed(lines) == BitDigits(lines)
  {
    if lines != [] {
      JoinedBits(lines[1..]);
      BitString(lines[0]);
    }
  }

  /** Read most significant first, the digits of some bits are their value read first bit least significant. */
  lemma {:induction false} BitDigitsValue(bits: seq<int>)
    requires IsBits(bits)
    ensures BinaryDigitsValue(BitDigits(bits)) == LsbValue(bits)
  {
    if bits != [] {
      BitDigitsValue(bits[1..]);
      var s := BitDigits(bits);
      assert s[..|s| - 1] == BitDigits(bits[1..]);
    }
  }

  /** str() of a bit is its one digit. */
  lemma BitString(b: int)
    requires b == 0 || b == 1
    ensures Text.IntToString(b) == if b == 1 then "1" else "0"
  {
  }

  /** For bits, the joined string parses to the lines' value read bottom line first. */
  lemma JoinedBitsValue(lines: seq<int>)
    requires IsBits(lines)
    ensures lines != [] ==> ParseBinary(JoinedReversed(lines)) == Some(LsbValue(lines))
    ensures lines == [] ==> ParseBinary(JoinedReversed(lines)) == None
  {
    JoinedBits(lines);
    BitDigitsValue(lines);
    var s := BitDigits(lines);
    if lines != [] {
      assert s[0] == '0' || s[0] == '1';
    }
  }

  /**
   * Line values other than bits are joined as str() writes them: [10]
   * becomes "10", read as 2, so its number is 3; [2] becomes "2", which
   * int(s, 2) refuses.
   */
  lemma HexagramNumberOfDigits()
    ensures CalculateHexagramNumber([10]) == Ok(3)
    ensures CalculateHexagramNumber([2]).Err?
  {
    TenAndTwo();
    assert JoinedReversed([10]) == JoinedReversed([]) + Text.IntToString(10);
    assert JoinedReversed([2]) == JoinedReversed([]) + Text.IntToString(2);
  }

  /** str(10) is "10", which int(s, 2) reads as 2; str(2) is "2", which it refuses. */
  lemma TenAndTwo()
    ensures Text.IntToString(10) == "10" && ParseBinary("10") == Some(2)
    ensures Text.IntToString(2) == "2" && ParseBinary("2") == None
  {
    assert Text.NatToString(10) == Text.NatToString(1) + [Text.Digit(0)];
    assert "10"[..1] == "1" && "1"[..0] == "";
  }

  /**
   * For six lines the number is in 1..64: six yin lines are 1, six yang
   * lines 64, and different lines have different numbers.
   */
  lemma HexagramNumberSixLines(lines: seq<int>, other: seq<int>)
    requires |lines| == 6 && IsBits(lines) && |other| == 6 && IsBits(other)
    ensures CalculateHexagramNumber(lines).Ok?
    ensures 1 <= CalculateHexagramNumber(lines).value <= 64
    ensures CalculateHexagramNumber(lines) == CalculateHexagramNumber(other) ==> lines == other
    ensures lines == [0, 0, 0, 0, 0, 0] ==> CalculateHexagramNumber(lines) == Ok(1)
    ensures lines == [1, 1, 1, 1, 1, 1] ==> CalculateHexagramNumber(lines) == Ok(64)
  {
    assert Pow2(6) == 64;
    CalculateHexagramNumberBits(lines);
    CalculateHexagramNumberBits(other);
    if CalculateHexagramNumber(lines) == CalculateHexagramNumber(other) {
      LsbValueInjective(lines, other);
    }
    ValueOfConstant(0, 6);
    ValueOfConstant(1, 6);
    assert seq(6, _ => 0) == [0, 0, 0, 0, 0, 0];
    assert seq(6, _ => 1) == [1, 1, 1, 1, 1, 1];
  }

  /** The bits with 1 - b at each listed 1-based position, applied in order. */
  function FlipPositions(lines: seq<int>, positions: seq<int>): (r: seq<int>)
    requires forall k :: 0 <= k < |positions| ==> 1 <= positions[k] <= |lines|
    ensures |r| == |lines|
  {
    if positions == [] then lines
    else
      var before := FlipPositions(lines, positions[..|positions| - 1]);
      var i := positions[|positions| - 1] - 1;
      before[i := 1 - before[i]]
  }

  /** The loop of get_relating_hexagram: 1 - b at each listed position of a copy of the lines, in order. */
  method FlipLines(lines: seq<int>, positions: seq<int>) returns (r: seq<int>)
    requires forall k :: 0 <= k < |positions| ==> 1 <= positions[k] <= |lines|
    ensures r == FlipPositions(lines, positions)
  {
    r := lines;
    for k := 0 to |positions|
      invariant r == FlipPositions(lines, positions[..k])
    {
      assert positions[..k + 1][..k] == positions[..k];
      var i := positions[k] - 1;
      r := r[i := 1 - r[i]];
    }
    assert positions[..|positions|] == positions;
  }

  /** With distinct positions, exactly the listed lines are flipped; bits stay bits. */
  lemma {:induction false} FlipPositionsExact(lines: seq<int>, positions: seq<int>)
    requires forall k :: 0 <= k < |positions| ==> 1 <= positions[k] <= |lines|
    requires Increasing(positions)
    ensures forall i :: 0 <= i < |lines| ==>
      FlipPositions(lines, positions)[i] == if i + 1 in positions then 1 - lines[i] else lines[i]
    ensures IsBits(lines) ==> IsBits(FlipPositions(lines, positions))
  {
    if positions != [] {
      var init := positions[..|positions| - 1];
      FlipPositionsExact(lines, init);
      var last := positions[|positions| - 1];
      assert last !in init;
      assert forall p :: p in positions <==> p in init || p == last;
    }
  }

  /**
   * The relating lines of a cast are the yin/yang pattern of its settled
   * lines: flipping the changing positions turns 6 into 7 and 9 into 8.
   */
  lemma RelatingLinesAreSettled(totals: seq<int>)
    requires AllLineValues(totals)
    ensures forall k :: 0 <= k < |ChangingLineNumbers(totals)| ==> 1 <= ChangingLineNumbers(totals)[k] <= |totals|
    ensures FlipPositions(Bits(totals), ChangingLineNumbers(totals)) == Bits(SettleAll(totals))
  {
    ChangingLineNumbersExact(totals);
    FlipPositionsExact(Bits(totals), ChangingLineNumbers(totals));
  }

  class Hexagram {
    var lines: seq<int>
    var changingLines: seq<int>
    var number: Option<int>

    /** What every Hexagram keeps: bit lines, and changing lines that are ascending positions of lines. */
    predicate Valid()
      reads this
    {
      IsBits(lines)
      && (forall k :: 0 <= k < |changingLines| ==> 1 <= changingLines[k] <= |lines|)
      && Increasing(changingLines)
    }

    constructor()
      ensures lines == [] && changingLines == [] && number == None
      ensures Valid()
    {
      lines := [];
      changingLines := [];
      number := None;
    }

    /** _divide_stalks: the sum of three coin picks. */
    static method DivideStalks(coins: seq<Coin>) returns (total: int)
      requires |coins| == 3
      ensures total == CoinTotal(coins)
    {
      total := 0;
      for k := 0 to 3
        invariant total == Sum(coins[..k])
      {
        assert coins[..k + 1][..k] == coins[..k];
        total := total + coins[k];
      }
      assert coins[..3] == coins;
    }

    /**
     * generate: forget the previous cast, throw six times, record a 0 or a
     * 1 per throw (yang for totals 7 and 9) and the position of every line
     * whose total was 6 or 9, then number the lines.
     */
    method Generate(throws: seq<seq<Coin>>)
      modifies this
      requires |throws| == 6 && forall k :: 0 <= k < 6 ==> |throws[k]| == 3
      ensures lines == Bits(Totals(throws))
      ensures changingLines == ChangingLineNumbers(Totals(throws))
      ensures number == Some(LsbValue(lines) + 1)
      ensures Valid()
    {
      ghost var totals := Totals(throws);
      lines := [];
      changingLines := [];
      for i := 0 to 6
        invariant lines == Bits(totals[..i])
        invariant changingLines == ChangingLineNumbers(totals[..i])
      {
        var total := DivideStalks(throws[i]);
        assert totals[..i + 1] == totals[..i] + [total];
        ChangingLineNumbersSnoc(totals[..i], total);
        if total == 6 {
          lines := lines + [0];
          changingLines := changingLines + [|lines|];
        } else if total == 9 {
          lines := lines + [1];
          changingLines := changingLines + [|lines|];
        } else if total == 7 {
          lines := lines + [1];
        } else if total == 8 {
          lines := lines + [0];
        }
      }
      assert totals[..6] == totals;
      ChangingLineNumbersExact(totals);
      CalculateHexagramNumberBits(lines);
      var n := CalculateHexagramNumber(lines);
      number := Some(n.value);
    }

    /**
     * get_relating_hexagram: None without changing lines; otherwise a new
     * Hexagram whose lines are these lines with the changing positions
     * flipped, with no changing lines of its own and its number computed.
     */
    method GetRelatingHexagram() returns (r: Option<Hexagram>)
      requires Valid()
      ensures r.None? <==> changingLines == []
      ensures r.Some? ==> fresh(r.value) && r.value.Valid() && r.value.changingLines == []
      ensures r.Some? ==> |r.value.lines| == |lines|
      ensures r.Some? ==> forall i :: 0 <= i < |lines| ==>
        r.value.lines[i] == if i + 1 in changingLines then 1 - lines[i] else lines[i]
      ensures r.Some? ==> r.value.number == Some(LsbValue(r.value.lines) + 1)
    {
      if changingLines == [] {
        return None;
      }
      var relatingLines := FlipLines(lines, changingLines);
      FlipPositionsExact(lines, changingLines);
      CalculateHexagramNumberBits(relatingLines);
      var n := CalculateHexagramNumber(relatingLines);
      var relating := new Hexagram();
      relating.lines := relatingLines;
      relating.number := Some(n.value);
      return Some(relating);
    }
  }

  /** A HexagramReading entry: its "lines" texts, if the key is present, and its other string fields. */
  datatype HexagramReading = HexagramReading(fields: map<string, string>, lines: Option<map<string, string>>)

  /** An entry with no keys at all, which `if not reading` rejects like a missing one. */
  predicate IsEmptyEntry(entry: HexagramReading)
  {
    entry.fields == map[] && entry.lines.None?
  }

  /** reading.get("lines", {}) */
  function LinesOf(entry: HexagramReading): map<string, string>
  {
    if entry.lines.Some? then entry.lines.value else map[]
  }

  /** The str(n) keys of the listed line numbers. */
  function LineKeys(lineNumbers: seq<int>): (keys: seq<string>)
    ensures |keys| == |lineNumbers|
    ensures forall j :: 0 <= j < |lineNumbers| ==> keys[j] == Text.IntToString(lineNumbers[j])
  {
    seq(|lineNumbers|, j requires 0 <= j < |lineNumbers| => Text.IntToString(lineNumbers[j]))
  }

  /** The texts kept for the listed line numbers: those present with a non-empty meaning. */
  function FilterLines(texts: map<string, string>, lineNumbers: seq<int>): map<string, string>
  {
    if lineNumbers == [] then map[]
    else
      var kept := FilterLines(texts, lineNumbers[..|lineNumbers| - 1]);
      var key := Text.IntToString(lineNumbers[|lineNumbers| - 1]);
      if key in texts && texts[key] != "" then kept[key := texts[key]] else kept
  }

  /**
   * A key survives the filter exactly when it is str(n) for a listed n and
   * has a non-empty meaning, and it keeps that meaning.
   */
  lemma {:induction false} FilterLinesExact(texts: map<string, string>, lineNumbers: seq<int>)
    ensures forall key :: key in FilterLines(texts, lineNumbers) <==>
      key in texts && texts[key] != "" && key in LineKeys(lineNumbers)
    ensures forall key :: key in FilterLines(texts, lineNumbers) ==> FilterLines(texts, lineNumbers)[key] == texts[key]
  {
    if lineNumbers != [] {
      var init := lineNumbers[..|lineNumbers| - 1];
      FilterLinesExact(texts, init);
      assert LineKeys(lineNumbers) == LineKeys(init) + [Text.IntToString(lineNumbers[|lineNumbers| - 1])];
    }
  }

  /** The entry get_reading hands back: with changing lines its "lines" replaced by the filtered texts. */
  function Interpret(entry: HexagramReading, changingLines: seq<int>): HexagramReading
  {
    if changingLines == [] then entry
    else entry.(lines := Some(FilterLines(LinesOf(entry), changingLines)))
  }

  class ReadingInterpreter {
    var readings: map<int, HexagramReading>

    constructor(readings: map<int, HexagramReading>)
      ensures this.readings == readings
    {
      this.readings := readings;
    }

    /**
     * get_reading: a missing or empty entry raises KeyError; with changing
     * lines the stored entry's "lines" is overwritten by the filtered texts,
     * so later calls see the filtered entry; without them nothing changes.
     */
    method GetReading(hexagramNumber: int, changingLines: seq<int>) returns (r: Result<HexagramReading, string>)
      modifies this
      ensures r.Err? <==> hexagramNumber !in old(readings) || IsEmptyEntry(old(readings)[hexagramNumber])
      ensures r.Err? ==> readings == old(readings)
      ensures r.Err? ==> r.error == "Reading not found for hexagram number " + Text.IntToString(hexagramNumber)
      ensures r.Ok? ==> r.value == Interpret(old(readings)[hexagramNumber], changingLines)
      ensures r.Ok? ==> readings == old(readings)[hexagramNumber := r.value]
    {
      if hexagramNumber !in readings || IsEmptyEntry(readings[hexagramNumber]) {
        return Err("Reading not found for hexagram number " + Text.IntToString(hexagramNumber));
      }
      var reading := readings[hexagramNumber];
      if changingLines != [] {
        var linesDict := LinesOf(reading);
        var transformedLines: map<string, string> := map[];
        for k := 0 to |changingLines|
          invariant transformedLines == FilterLines(linesDict, changingLines[..k])
        {
          assert changingLines[..k + 1][..k] == changingLines[..k];
          var key := Text.IntToString(changingLines[k]);
          if key in linesDict && linesDict[key] != "" {
            transformedLines := transformedLines[key := linesDict[key]];
          }
        }
        assert changingLines[..|changingLines|] == changingLines;
        reading := reading.(lines := Some(transformedLines));
        readings := readings[hexagramNumber := reading];
      }
      r := Ok(reading);
    }
  }
}
