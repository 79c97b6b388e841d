/**
 * The reading service of iching_api/app/main.py: line generation for the
 * "yarrow", "random" and "coins" modes, a hexagram number read from the
 * lines as a binary number (line 1 most significant, then mod 64 plus 1),
 * the relating lines, the response validators, and the two text cleaners
 * applied to generated interpretations.
 */
module IchingApiMain {
  import opened Wrappers
  import opened Draws
  import opened LineValues
  import opened Stalks
  import Text
  import CoreYarrow

  const ValidDivinationModes: set<string> := {"yarrow", "coins", "random"}
  const MinHexagramNumber: int := 1
  const MaxHexagramNumber: int := 64
  const MinLineNumber: int := 1
  const MaxLineNumber: int := 6

  // ---------------------------------------------------------------------
  // _generate_yarrow_line
  // ---------------------------------------------------------------------

  /**
   * Splitting `total` stalks with a west pile of randint(1, hi) and
   * counting both piles off by fours: the stalks left in the hand.
   */
  function SplitCount(total: int, hi: int, d: nat): int
    requires hi >= 1
  {
    var west := RandInt(1, hi, d);
    Rem4(west) + Rem4(total - west)
  }

  /**
   * The three counts of _generate_yarrow_line as written: the first
   * division takes the finger stalk out of the east pile (48 stalks are
   * counted), the second and third split all remaining stalks and subtract
   * the finger stalk only afterwards.
   */
  function YarrowCountsAsWritten(d1: nat, d2: nat, d3: nat): (int, int, int)
  {
    var stalks := 49;
    var firstCount := SplitCount(stalks - 1, stalks - 1, d1);
    var remaining2 := stalks - firstCount - 1;
    var secondCount := if remaining2 >= 2 then SplitCount(remaining2, remaining2 - 1, d2) else 0;
    var remaining3 := remaining2 - secondCount - 1;
    var thirdCount := if remaining3 >= 2 then SplitCount(remaining3, remaining3 - 1, d3) else 0;
    (firstCount, secondCount, thirdCount)
  }

  /** _generate_yarrow_line as written: the total of the three counts mapped through its if-chain. */
  function YarrowLineAsWritten(d1: nat, d2: nat, d3: nat): int
  {
    var counts := YarrowCountsAsWritten(d1, d2, d3);
    var total := counts.0 + counts.1 + counts.2;
    if total == 24 then 9
    else if total in {28, 32} then 7
    else if total in {33, 37, 41} then 8
    else 6
  }

  /** Counted stalks whose total is 0 or 3 modulo 4 leave 4 or 8 in the hand, or 3 or 7. */
  lemma SplitCountOutcome(total: int, hi: int, d: nat)
    requires hi >= 1 && (total % 4 == 0 || total % 4 == 3)
    ensures total % 4 == 0 ==> SplitCount(total, hi, d) in {4, 8}
    ensures total % 4 == 3 ==> SplitCount(total, hi, d) in {3, 7}
  {
    var west := RandInt(1, hi, d);
    RemaindersOfSplit(west, total - west);
    CountedSum(total, Rem4(west) + Rem4(total - west));
  }

  /** Remainders between 2 and 8 that leave a multiple of 4 of the total are 4 or 8 for a multiple of 4, 3 or 7 otherwise. */
  lemma CountedSum(total: int, sum: int)
    requires total % 4 == 0 || total % 4 == 3
    requires 2 <= sum <= 8 && (total - sum) % 4 == 0
    ensures total % 4 == 0 ==> sum in {4, 8}
    ensures total % 4 == 3 ==> sum in {3, 7}
  {
    var q := total / 4;
    assert total - sum == 4 * q + (total % 4 - sum);
    assert (total % 4 - sum) % 4 == 0;
  }

  /**
   * The first and second counts are 4 or 8 and the third 3 or 7, so the
   * total lies in 11..23, misses every value the if-chain tests, and the
   * line is always 6.
   */
  lemma YarrowLineAlwaysSix(d1: nat, d2: nat, d3: nat)
    ensures var counts := YarrowCountsAsWritten(d1, d2, d3);
      counts.0 in {4, 8} && counts.1 in {4, 8} && counts.2 in {3, 7}
      && 11 <= counts.0 + counts.1 + counts.2 <= 23
    ensures YarrowLineAsWritten(d1, d2, d3) == 6
  {
    SplitCountOutcome(48, 48, d1);
    var remaining2 := 48 - SplitCount(48, 48, d1);
    assert remaining2 in {44, 40};
    SplitCountOutcome(remaining2, remaining2 - 1, d2);
    var remaining3 := remaining2 - SplitCount(remaining2, remaining2 - 1, d2) - 1;
    assert remaining3 in {39, 35, 31};
    SplitCountOutcome(remaining3, remaining3 - 1, d3);
  }

  /**
   * One division as the first one of _generate_yarrow_line makes it: split
   * the stalks, take the finger stalk from the east pile, and put aside the
   * finger stalk and both piles' remainders.
   */
  function YarrowStage(stalks: int, d: nat): int
    requires stalks >= 2
  {
    var west := RandInt(1, stalks - 1, d);
    var east := stalks - west - 1;
    stalks - (Rem4(west) + Rem4(east)) - 1
  }

  /** Stalks put aside that leave a multiple of 4 behind: 4 or 8 from 49 stalks, 3 or 7 from a multiple of 4. */
  lemma PutAside(stalks: int, sum: int)
    requires stalks == 49 || stalks % 4 == 0
    requires 2 <= sum <= 8 && (stalks - 1 - sum) % 4 == 0
    ensures stalks == 49 ==> sum in {4, 8}
    ensures stalks != 49 ==> sum in {3, 7}
  {
    if stalks != 49 {
      var q := stalks / 4;
      assert stalks == 4 * q;
      assert (4 * (q - 1) + 3 - sum) % 4 == 0;
    }
  }

  /** For at least 4 stalks the division is the one of core/yarrow.py's perform_division. */
  lemma StageMatchesDivision(stalks: int, d: nat)
    requires stalks >= 4
    ensures CoreYarrow.PerformDivision(stalks, d).Ok?
    ensures CoreYarrow.PerformDivision(stalks, d).value.1 == YarrowStage(stalks, d)
  {
    var west := RandInt(1, stalks - 1, d);
    assert CoreYarrow.Piles(stalks, d) == (west, stalks - west - 1);
  }

  /** From 49 stalks a division leaves 44 or 40; from a multiple of 4 it removes 4 or 8. */
  lemma YarrowStageOutcome(stalks: int, d: nat)
    requires stalks == 49 || (stalks >= 4 && stalks % 4 == 0)
    ensures stalks == 49 ==> YarrowStage(stalks, d) == 44 || YarrowStage(stalks, d) == 40
    ensures stalks != 49 ==> YarrowStage(stalks, d) == stalks - 4 || YarrowStage(stalks, d) == stalks - 8
    ensures YarrowStage(stalks, d) == CoreYarrow.PerformDivision(stalks, d).value.1
  {
    var west := RandInt(1, stalks - 1, d);
    var east := stalks - west - 1;
    var sum := Rem4(west) + Rem4(east);
    assert YarrowStage(stalks, d) == stalks - sum - 1;
    RemaindersOfSplit(west, east);
    PutAside(stalks, sum);
    StageMatchesDivision(stalks, d);
  }

  /** The stalks left once each draw has made its corrected division, starting from the given count. */
  function YarrowLeft(stalks: int, ds: seq<nat>): (left: int)
    requires |ds| <= 3 && (stalks == 49 || (stalks % 4 == 0 && stalks >= 8 * |ds| + 4))
    ensures stalks - 9 * |ds| <= left <= stalks - 4 * |ds|
    ensures ds == [] ==> left == stalks
    ensures ds != [] ==> left % 4 == 0
    decreases |ds|
  {
    if ds == [] then stalks
    else
      YarrowStageOutcome(stalks, ds[0]);
      YarrowLeft(YarrowStage(stalks, ds[0]), ds[1..])
  }

  /**
   * _generate_yarrow_line as the traditional method it documents: three
   * divisions made alike, the line being the stalks left at the end
   * divided by four (36 for 9, 32 for 8, 28 for 7, 24 for 6).
   */
  function YarrowLine(draws: seq<nat>): (v: int)
    requires |draws| == 3
    ensures IsLineValue(v)
  {
    YarrowLeft(49, draws) / 4
  }

  /** The score of one division, in terms of the stalks it leaves: 4 less a quarter of what it put aside, the finger stalk of the first division apart. */
  lemma StageScore(stalks: int, next: int)
    requires (stalks == 49 && (next == 44 || next == 40)) || (stalks % 4 == 0 && (next == stalks - 4 || next == stalks - 8))
    ensures CoreYarrow.GetValueFromRemainder(stalks - next).Ok?
    ensures 4 * CoreYarrow.GetValueFromRemainder(stalks - next).value == 16 - (stalks - next) + (if stalks == 49 then 1 else 0)
  {
  }

  /**
   * core/yarrow.py's stage sum over the same draws, four times over: each
   * division scores 4 less a quarter of the stalks it puts aside, the
   * finger stalk of the first division apart.
   */
  lemma {:induction false} StageSumOfLeft(stalks: int, ds: seq<nat>)
    requires |ds| <= 3 && (stalks == 49 || (stalks % 4 == 0 && stalks >= 8 * |ds| + 4))
    ensures CoreYarrow.StageSum(stalks, ds).Ok?
    ensures 4 * CoreYarrow.StageSum(stalks, ds).value
         == 16 * |ds| - (stalks - YarrowLeft(stalks, ds)) + (if stalks == 49 && ds != [] then 1 else 0)
    decreases |ds|
  {
    if ds != [] {
      var next, v := StageSumStep(stalks, ds);
      StageSumOfLeft(next, ds[1..]);
      StageScore(stalks, next);
    }
  }

  /** One division of the stage sum, next to the stalks it leaves. */
  lemma StageSumStep(stalks: int, ds: seq<nat>) returns (next: int, v: int)
    requires 1 <= |ds| <= 3 && (stalks == 49 || (stalks % 4 == 0 && stalks >= 8 * |ds| + 4))
    ensures (stalks == 49 && (next == 44 || next == 40)) || (stalks % 4 == 0 && (next == stalks - 4 || next == stalks - 8))
    ensures next % 4 == 0 && next >= 8 * (|ds| - 1) + 4
    ensures YarrowLeft(stalks, ds) == YarrowLeft(next, ds[1..])
    ensures CoreYarrow.GetValueFromRemainder(stalks - next) == Ok(v)
    ensures CoreYarrow.StageSum(stalks, ds) == CoreYarrow.AddTo(v, CoreYarrow.StageSum(next, ds[1..]))
  {
    YarrowStageOutcome(stalks, ds[0]);
    next := YarrowStage(stalks, ds[0]);
    CoreYarrow.StageStep(stalks, ds[0], ds[1..]);
    assert [ds[0]] + ds[1..] == ds;
    assert CoreYarrow.PerformDivision(stalks, ds[0]).value.0 == stalks - next;
    v := CoreYarrow.GetValueFromRemainder(stalks - next).value;
  }

  /** The corrected line is the line core/yarrow.py's generate_one_line casts from the same draws. */
  lemma YarrowLineAgrees(draws: seq<nat>)
    requires |draws| == 3
    ensures CoreYarrow.LineOf(draws) == Ok(YarrowLine(draws))
  {
    StageSumOfLeft(49, draws);
  }

  /** Every line value is reachable: west piles of one stalk throughout give 9, of four give 6. */
  lemma YarrowLineReachesNine()
    ensures YarrowLine([0, 0, 0]) == 9
  {
    assert YarrowStage(49, 0) == 44;
    assert YarrowStage(44, 0) == 40;
    assert YarrowStage(40, 0) == 36;
  }

  lemma YarrowLineReachesEight()
    ensures YarrowLine([3, 0, 0]) == 8
  {
    assert YarrowStage(49, 3) == 40;
    assert YarrowStage(40, 0) == 36;
    assert YarrowStage(36, 0) == 32;
  }

  lemma YarrowLineReachesSeven()
    ensures YarrowLine([3, 3, 0]) == 7
  {
    assert YarrowStage(49, 3) == 40;
    assert YarrowStage(40, 3) == 32;
    assert YarrowStage(32, 0) == 28;
  }

  lemma YarrowLineReachesSix()
    ensures YarrowLine([3, 3, 3]) == 6
  {
    assert YarrowStage(49, 3) == 40;
    assert YarrowStage(40, 3) == 32;
    assert YarrowStage(32, 3) == 24;
  }

  /** The draws that traditionally give a 9 give a 6 as written. */
  lemma YarrowLineAsWrittenDiffers()
    ensures YarrowLine([0, 0, 0]) == 9 && YarrowLineAsWritten(0, 0, 0) == 6
  {
    YarrowLineReachesNine();
    YarrowLineAlwaysSix(0, 0, 0);
  }

  // ---------------------------------------------------------------------
  // _generate_coin_lines
  // ---------------------------------------------------------------------

  /** How many of the flips came up heads (random.random() > 0.5). */
  function Heads(flips: seq<Unit>): (heads: nat)
    ensures heads <= |flips|
  {
    if flips == [] then 0 else Heads(flips[..|flips| - 1]) + (if flips[|flips| - 1] > 0.5 then 1 else 0)
  }

  predicate CoinFlipsShape(flips: seq<seq<Unit>>)
  {
    |flips| == MaxLineNumber && forall k :: 0 <= k < |flips| ==> |flips[k]| == 3
  }

  /** The lines of _generate_coin_lines: six plus the number of heads, so 0, 1, 2, 3 heads give 6, 7, 8, 9. */
  function CoinLines(flips: seq<seq<Unit>>): (lines: seq<int>)
    requires CoinFlipsShape(flips)
    ensures |lines| == 6 && AllLineValues(lines)
    ensures forall k :: 0 <= k < 6 ==> lines[k] == 6 + Heads(flips[k])
  {
    seq(6, k requires 0 <= k < 6 => 6 + Heads(flips[k]))
  }

  /** _generate_coin_lines: three flips per line, counting heads, then the heads count's line value. */
  method GenerateCoinLines(flips: seq<seq<Unit>>) returns (lines: seq<int>)
    requires CoinFlipsShape(flips)
    ensures lines == CoinLines(flips)
  {
    lines := [];
    for i := 0 to MaxLineNumber
      invariant lines == CoinLines(flips)[..i]
    {
      var heads := 0;
      for j := 0 to 3
        invariant heads == Heads(flips[i][..j])
      {
        assert flips[i][..j + 1][..j] == flips[i][..j];
        if flips[i][j] > 0.5 {
          heads := heads + 1;
        }
      }
      assert flips[i][..3] == flips[i];
      if heads == 0 {
        lines := lines + [6];
      } else if heads == 1 {
        lines := lines + [7];
      } else if heads == 2 {
        lines := lines + [8];
      } else {
        lines := lines + [9];
      }
    }
  }

  // ---------------------------------------------------------------------
  // _calculate_hexagram_number and _calculate_relating_hexagram_number
  // ---------------------------------------------------------------------

  /**
   * _calculate_hexagram_number: the lines as a binary string, line 1 first
   * and "1" for a yang line, read by int(s, 2), then mod 64 plus 1;
   * int('', 2) raises on no lines.
   */
  function CalculateHexagramNumber(lines: seq<int>): (r: Result<int, string>)
    ensures r.Ok? <==> lines != []
    ensures r.Ok? ==> MinHexagramNumber <= r.value <= MaxHexagramNumber
  {
    if lines == [] then Err("invalid literal for int() with base 2: ''")
    else Ok(MsbValue(Bits(lines)) % MaxHexagramNumber + MinHexagramNumber)
  }

  /** Six bits read as binary lie in 0..63. */
  lemma SixBitsRange(b: seq<int>)
    requires |b| == 6 && IsBits(b)
    ensures 0 <= MsbValue(b) < 64
  {
    MsbValueRange(b);
    assert Pow2(6) == 64;
  }

  /** For six lines the number is the binary value plus one: one-to-one, six yin lines 1, six yang lines 64. */
  lemma CalculateHexagramNumberSixLines(lines: seq<int>, other: seq<int>)
    requires |lines| == 6 && |other| == 6
    ensures CalculateHexagramNumber(lines) == Ok(MsbValue(Bits(lines)) + 1)
    ensures CalculateHexagramNumber(lines) == CalculateHexagramNumber(other) ==> Bits(lines) == Bits(other)
    ensures (forall i :: 0 <= i < 6 ==> !IsYang(lines[i])) ==> CalculateHexagramNumber(lines) == Ok(1)
    ensures (forall i :: 0 <= i < 6 ==> IsYang(lines[i])) ==> CalculateHexagramNumber(lines) == Ok(64)
  {
    var b, c := Bits(lines), Bits(other);
    SixBitsRange(b);
    SixBitsRange(c);
    assert CalculateHexagramNumber(lines) == Ok(MsbValue(b) + 1);
    assert CalculateHexagramNumber(other) == Ok(MsbValue(c) + 1);
    if MsbValue(b) == MsbValue(c) {
      MsbValueInjective(b, c);
    }
    if forall i :: 0 <= i < 6 ==> !IsYang(lines[i]) {
      assert b == [0, 0, 0, 0, 0, 0];
      SixZerosValue();
    }
    if forall i :: 0 <= i < 6 ==> IsYang(lines[i]) {
      assert b == [1, 1, 1, 1, 1, 1];
      SixOnesValue();
    }
  }

  /** Python's list index: a negative index counts from the end. */
  function PyIndex(idx: int, n: int): int
  {
    if idx < 0 then idx + n else idx
  }

  /** Line number pos names an element of n lines in Python when pos - 1 lies in [-n, n). */
  predicate ValidPosition(pos: int, n: int)
  {
    -n <= pos - 1 < n
  }

  /** The list positions the line numbers address. */
  function Targets(changing: seq<int>, n: int): seq<int>
  {
    seq(|changing|, k requires 0 <= k < |changing| => PyIndex(changing[k] - 1, n))
  }

  /** The new value of a listed line: 7 if it was 6 or 8 (a yin line), otherwise 8. */
  function Relate(v: int): int
  {
    if v == 6 || v == 8 then 7 else 8
  }

  /** The relating lines: each addressed line related, every other line kept. */
  function Related(lines: seq<int>, changing: seq<int>): (r: seq<int>)
    ensures |r| == |lines|
  {
    var targets := Targets(changing, |lines|);
    seq(|lines|, i requires 0 <= i < |lines| => if i in targets then Relate(lines[i]) else lines[i])
  }

  /**
   * The loop of _calculate_relating_hexagram_number over a copy of the
   * lines.  A line number outside the list is the IndexError it raises.
   */
  method RelatingLines(lines: seq<int>, changing: seq<int>) returns (r: Result<seq<int>, string>)
    ensures r.Ok? <==> forall k :: 0 <= k < |changing| ==> ValidPosition(changing[k], |lines|)
    ensures r.Ok? ==> r.value == Related(lines, changing)
  {
    var newLines := lines;
    for k := 0 to |changing|
      invariant forall j :: 0 <= j < k ==> ValidPosition(changing[j], |lines|)
      invariant |newLines| == |lines|
      invariant forall i :: 0 <= i < |lines| ==>
        newLines[i] == if i in Targets(changing[..k], |lines|) then Relate(lines[i]) else lines[i]
    {
      var pos := changing[k];
      var idx := pos - 1;
      if !ValidPosition(pos, |lines|) {
        return Err("list index out of range");
      }
      var at := PyIndex(idx, |lines|);
      newLines := newLines[at := if lines[at] == 6 || lines[at] == 8 then 7 else 8];
      assert Targets(changing[..k + 1], |lines|) == Targets(changing[..k], |lines|) + [at];
    }
    assert changing[..|changing|] == changing;
    r := Ok(newLines);
  }

  /**
   * With the changing lines' own numbers the relating lines are the settled
   * lines: 6 becomes 7, 9 becomes 8, 7 and 8 stay.
   */
  lemma RelatedChangingIsSettled(lines: seq<int>)
    requires AllLineValues(lines)
    ensures forall k :: 0 <= k < |ChangingLineNumbers(lines)| ==> ValidPosition(ChangingLineNumbers(lines)[k], |lines|)
    ensures Related(lines, ChangingLineNumbers(lines)) == SettleAll(lines)
  {
    ChangingIndicesExact(lines);
    ChangingLineNumbersExact(lines);
    assert Targets(ChangingLineNumbers(lines), |lines|) == ChangingIndices(lines);
  }

  /** _calculate_relating_hexagram_number: the number of the relating lines. */
  method CalculateRelatingHexagramNumber(lines: seq<int>, changing: seq<int>) returns (r: Result<int, string>)
    ensures r.Ok? <==> lines != [] && forall k :: 0 <= k < |changing| ==> ValidPosition(changing[k], |lines|)
    ensures r.Ok? ==> r == CalculateHexagramNumber(Related(lines, changing))
  {
    var newLines := RelatingLines(lines, changing);
    if newLines.Err? {
      return Err(newLines.error);
    }
    r := CalculateHexagramNumber(newLines.value);
  }

  // ---------------------------------------------------------------------
  // Validators
  // ---------------------------------------------------------------------

  /** HexagramData.validate_number. */
  function ValidateNumber(v: int): (r: Result<int, string>)
    ensures r.Ok? <==> MinHexagramNumber <= v <= MaxHexagramNumber
    ensures r.Ok? ==> r.value == v
  {
    if !(MinHexagramNumber <= v <= MaxHexagramNumber) then Err("Hexagram number must be between 1 and 64")
    else Ok(v)
  }

  /** ReadingResponse.validate_changing_lines. */
  function ValidateChangingLines(v: seq<int>): (r: Result<seq<int>, string>)
    ensures r.Ok? <==> forall i :: 0 <= i < |v| ==> MinLineNumber <= v[i] <= MaxLineNumber
    ensures r.Ok? ==> r.value == v
  {
    if !(forall i :: 0 <= i < |v| ==> MinLineNumber <= v[i] <= MaxLineNumber) then Err("Changing lines must be between 1 and 6")
    else Ok(v)
  }

  /** Message.validate_content: content that strips to nothing is refused. */
  function ValidateContent(v: string): (r: Result<string, string>)
    ensures r.Ok? <==> exists i :: 0 <= i < |v| && !Text.IsSpace(v[i])
    ensures r.Ok? ==> r.value == v
  {
    Text.StripEmpty(v);
    if Text.Strip(v) == [] then Err("Message content cannot be empty") else Ok(v)
  }

  /** DivinationRequest.validate_mode. */
  function ValidateMode(v: string): (r: Result<string, string>)
    ensures r.Ok? <==> v == "yarrow" || v == "coins" || v == "random"
    ensures r.Ok? ==> r.value == v
  {
    if v !in ValidDivinationModes then Err("Mode must be one of: " + "{'yarrow', 'coins', 'random'}") else Ok(v)
  }

  // ---------------------------------------------------------------------
  // generate_reading
  // ---------------------------------------------------------------------

  /** The draws a reading may consume: three per yarrow line, one per random line, three flips per coin line. */
  datatype ReadingDraws = ReadingDraws(yarrow: seq<seq<nat>>, random: seq<nat>, flips: seq<seq<Unit>>)

  predicate DrawsShape(draws: ReadingDraws)
  {
    |draws.yarrow| == 6 && (forall k :: 0 <= k < 6 ==> |draws.yarrow[k]| == 3)
    && |draws.random| == 6 && CoinFlipsShape(draws.flips)
  }

  /** The six lines of a valid mode, with _generate_yarrow_line as written. */
  function CastLines(mode: string, draws: ReadingDraws): (lines: seq<int>)
    requires DrawsShape(draws) && mode in ValidDivinationModes
    ensures |lines| == 6 && AllLineValues(lines)
  {
    if mode == "yarrow" then
      seq(6, k requires 0 <= k < 6 => YarrowLineAsWritten(draws.yarrow[k][0], draws.yarrow[k][1], draws.yarrow[k][2]))
    else if mode == "random" then seq(6, k requires 0 <= k < 6 => 6 + draws.random[k] % 4)
    else CoinLines(draws.flips)
  }

  /** The six lines of a valid mode, with yarrow lines cast by the traditional method. */
  function CastLinesTraditional(mode: string, draws: ReadingDraws): (lines: seq<int>)
    requires DrawsShape(draws) && mode in ValidDivinationModes
    ensures |lines| == 6 && AllLineValues(lines)
    ensures mode != "yarrow" ==> lines == CastLines(mode, draws)
  {
    if mode == "yarrow" then seq(6, k requires 0 <= k < 6 => YarrowLine(draws.yarrow[k]))
    else CastLines(mode, draws)
  }

  /**
   * As written, every yarrow reading is the same: six old yin lines, read as
   * binary 000000 and numbered 1, all six lines changing, and the relating
   * lines six young yang lines, numbered 64.
   */
  lemma YarrowReadingIsOneToSixtyFour(draws: ReadingDraws)
    requires DrawsShape(draws)
    ensures CastLines("yarrow", draws) == [6, 6, 6, 6, 6, 6]
    ensures CalculateHexagramNumber(CastLines("yarrow", draws)) == Ok(1)
    ensures ChangingLineNumbers(CastLines("yarrow", draws)) == [1, 2, 3, 4, 5, 6]
    ensures SettleAll(CastLines("yarrow", draws)) == [7, 7, 7, 7, 7, 7]
    ensures CalculateHexagramNumber(SettleAll(CastLines("yarrow", draws))) == Ok(64)
  {
    var lines := CastLines("yarrow", draws);
    forall k | 0 <= k < 6
      ensures lines[k] == 6
    {
      YarrowLineAlwaysSix(draws.yarrow[k][0], draws.yarrow[k][1], draws.yarrow[k][2]);
    }
    assert lines == [6, 6, 6, 6, 6, 6];
    CalculateHexagramNumberSixLines(lines, lines);
    CalculateHexagramNumberSixLines([7, 7, 7, 7, 7, 7], lines);
    SixOldYinChange();
  }

  /** Six old yin lines all change: line numbers 1 to 6. */
  lemma SixOldYinChange()
    ensures ChangingLineNumbers([6, 6, 6, 6, 6, 6]) == [1, 2, 3, 4, 5, 6]
  {
    var six := [6, 6, 6, 6, 6, 6];
    assert six[..5] == [6, 6, 6, 6, 6] && six[..5][..4] == [6, 6, 6, 6];
    assert six[..5][..4][..3] == [6, 6, 6] && six[..5][..4][..3][..2] == [6, 6];
    assert six[..5][..4][..3][..2][..1] == [6] && [6][..0] == [];
    assert ChangingIndices([6]) == [0];
    assert ChangingIndices([6, 6]) == [0, 1];
    assert ChangingIndices([6, 6, 6]) == [0, 1, 2];
    assert ChangingIndices([6, 6, 6, 6]) == [0, 1, 2, 3];
    assert ChangingIndices([6, 6, 6, 6, 6]) == [0, 1, 2, 3, 4];
  }

  datatype ReadingResponse<E> = ReadingResponse(
    hexagramNumber: int,
    changingLines: seq<int>,
    lines: seq<int>,
    reading: E,
    relatingHexagram: Option<E>,
    hasAiInterpretation: bool,
    aiInterpretationAvailable: bool)

  /** What ReadingResponse's field constraints and validators require. */
  predicate ResponseValid<E>(response: ReadingResponse<E>)
  {
    ValidateNumber(response.hexagramNumber).Ok?
    && ValidateChangingLines(response.changingLines).Ok?
    && |response.lines| == MaxLineNumber
  }

  /**
   * The part of generate_reading after the lines are cast: the primary
   * number must be in the table (otherwise the KeyError, whose text is the
   * number, becomes the ValueError "Failed to convert primary hexagram");
   * the relating hexagram is computed only when some line changes, and is
   * None when its number is not in the table.
   */
  method ReadingOfLines<E>(hexagrams: map<int, E>, lines: seq<int>, hasClient: bool)
    returns (r: Result<ReadingResponse<E>, string>)
    requires |lines| == 6 && AllLineValues(lines)
    ensures r.Ok? <==> CalculateHexagramNumber(lines).value in hexagrams
    ensures r.Err? ==> r.error == "Failed to convert primary hexagram: " + Text.IntToString(CalculateHexagramNumber(lines).value)
    ensures r.Ok? ==>
      var res := r.value;
      res.lines == lines
      && res.changingLines == ChangingLineNumbers(res.lines)
      && Ok(res.hexagramNumber) == CalculateHexagramNumber(res.lines)
      && res.reading == hexagrams[res.hexagramNumber]
      && ResponseValid(res)
      && !res.hasAiInterpretation && res.aiInterpretationAvailable == hasClient
    ensures r.Ok? ==>
      var res := r.value;
      var relating := CalculateHexagramNumber(SettleAll(res.lines)).value;
      res.relatingHexagram == if res.changingLines != [] && relating in hexagrams then Some(hexagrams[relating]) else None
  {
    var changingLines := ChangingLineNumbers(lines);
    ChangingLineNumbersExact(lines);
    var hexagramNumber := CalculateHexagramNumber(lines).value;
    if hexagramNumber !in hexagrams {
      return Err("Failed to convert primary hexagram: " + Text.IntToString(hexagramNumber));
    }
    var hexagramData := hexagrams[hexagramNumber];
    var relatingHexagram: Option<E> := None;
    if changingLines != [] {
      RelatedChangingIsSettled(lines);
      var relatingNumber := CalculateRelatingHexagramNumber(lines, changingLines);
      if relatingNumber.value in hexagrams {
        relatingHexagram := Some(hexagrams[relatingNumber.value]);
      }
    }
    r := Ok(ReadingResponse(hexagramNumber, changingLines, lines, hexagramData, relatingHexagram, false, hasClient));
  }

  /**
   * generate_reading over the hexagram table.  An empty table and an
   * unknown mode raise; otherwise the reading of the cast lines, with
   * yarrow lines as _generate_yarrow_line is written.
   */
  method GenerateReading<E>(hexagrams: map<int, E>, mode: string, draws: ReadingDraws, hasClient: bool)
    returns (r: Result<ReadingResponse<E>, string>)
    requires DrawsShape(draws)
    ensures hexagrams == map[] ==> r == Err("No hexagram data available")
    ensures hexagrams != map[] && mode !in ValidDivinationModes ==> r == Err("Invalid mode: " + mode)
    ensures r.Ok? <==>
      hexagrams != map[] && mode in ValidDivinationModes
      && CalculateHexagramNumber(CastLines(mode, draws)).value in hexagrams
    ensures r.Err? && hexagrams != map[] && mode in ValidDivinationModes ==>
      r.error == "Failed to convert primary hexagram: " + Text.IntToString(CalculateHexagramNumber(CastLines(mode, draws)).value)
    ensures r.Ok? ==>
      var res := r.value;
      res.lines == CastLines(mode, draws)
      && res.changingLines == ChangingLineNumbers(res.lines)
      && Ok(res.hexagramNumber) == CalculateHexagramNumber(res.lines)
      && res.reading == hexagrams[res.hexagramNumber]
      && ResponseValid(res)
      && !res.hasAiInterpretation && res.aiInterpretationAvailable == hasClient
    ensures r.Ok? ==>
      var res := r.value;
      var relating := CalculateHexagramNumber(SettleAll(res.lines)).value;
      res.relatingHexagram == if res.changingLines != [] && relating in hexagrams then Some(hexagrams[relating]) else None
  {
    if hexagrams == map[] {
      return Err("No hexagram data available");
    }
    var lines: seq<int>;
    if mode == "yarrow" {
      lines := seq(6, k requires 0 <= k < 6 => YarrowLineAsWritten(draws.yarrow[k][0], draws.yarrow[k][1], draws.yarrow[k][2]));
    } else if mode == "random" {
      lines := seq(6, k requires 0 <= k < 6 => 6 + draws.random[k] % 4);
    } else if mode == "coins" {
      lines := GenerateCoinLines(draws.flips);
    } else {
      return Err("Invalid mode: " + mode);
    }
    assert lines == CastLines(mode, draws);
    r := ReadingOfLines(hexagrams, lines, hasClient);
  }

  /** generate_reading with yarrow lines cast by the traditional method; the other modes are unchanged. */
  method GenerateReadingTraditional<E>(hexagrams: map<int, E>, mode: string, draws: ReadingDraws, hasClient: bool)
    returns (r: Result<ReadingResponse<E>, string>)
    requires DrawsShape(draws)
    ensures hexagrams == map[] ==> r == Err("No hexagram data available")
    ensures hexagrams != map[] && mode !in ValidDivinationModes ==> r == Err("Invalid mode: " + mode)
    ensures r.Ok? <==>
      hexagrams != map[] && mode in ValidDivinationModes
      && CalculateHexagramNumber(CastLinesTraditional(mode, draws)).value in hexagrams
    ensures r.Err? && hexagrams != map[] && mode in ValidDivinationModes ==>
      r.error == "Failed to convert primary hexagram: " + Text.IntToString(CalculateHexagramNumber(CastLinesTraditional(mode, draws)).value)
    ensures r.Ok? ==>
      var res := r.value;
      res.lines == CastLinesTraditional(mode, draws)
      && res.changingLines == ChangingLineNumbers(res.lines)
      && Ok(res.hexagramNumber) == CalculateHexagramNumber(res.lines)
      && res.reading == hexagrams[res.hexagramNumber]
      && ResponseValid(res)
      && !res.hasAiInterpretation && res.aiInterpretationAvailable == hasClient
    ensures r.Ok? ==>
      var res := r.value;
      var relating := CalculateHexagramNumber(SettleAll(res.lines)).value;
      res.relatingHexagram == if res.changingLines != [] && relating in hexagrams then Some(hexagrams[relating]) else None
  {
    if hexagrams == map[] {
      return Err("No hexagram data available");
    }
    if mode !in ValidDivinationModes {
      return Err("Invalid mode: " + mode);
    }
    var lines := CastLinesTraditional(mode, draws);
    r := ReadingOfLines(hexagrams, lines, hasClient);
  }

  // ---------------------------------------------------------------------
  // Text cleaning
  // ---------------------------------------------------------------------

  /** The response sanitiser: " ".join(s.split())[:2000]. */
  function Sanitize(s: string): string
  {
    PyTake(Text.Join(Text.Words(s), " "), 2000)
  }

  /** Truncating keeps a non-whitespace first character and single spacing. */
  lemma TakeKeepsSpacing(c: string, n: nat)
    requires c == [] || !Text.IsSpace(c[0])
    requires Text.NoDoubleSpace(c)
    ensures var r := PyTake(c, n); (r == [] || !Text.IsSpace(r[0])) && Text.NoDoubleSpace(r)
  {
    var r := PyTake(c, n);
    forall i | 0 <= i < |r| - 1
      ensures !Text.DoubleSpaceAt(r, i)
    {
      assert r[i] == c[i] && r[i + 1] == c[i + 1];
      assert !Text.DoubleSpaceAt(c, i);
    }
  }

  /**
   * Sanitised text has at most 2000 characters, does not start with
   * whitespace, and never has two whitespace characters side by side.
   */
  lemma SanitizeShape(s: string)
    ensures |Sanitize(s)| <= 2000
    ensures Sanitize(s) == [] || !Text.IsSpace(Sanitize(s)[0])
    ensures Text.NoDoubleSpace(Sanitize(s))
  {
    Text.CollapseShape(s);
    Text.JoinSpacedShape(Text.Words(s));
    TakeKeepsSpacing(Text.Join(Text.Words(s), " "), 2000);
  }

  /**
   * Text short enough not to be cut loses only whitespace: its
   * non-whitespace characters all survive, in order; the result is empty
   * exactly when there were none, and it ends with one.
   */
  lemma SanitizeKeepsInk(s: string)
    requires |Text.Join(Text.Words(s), " ")| <= 2000
    ensures Text.Ink(Sanitize(s)) == Text.Ink(s)
    ensures Sanitize(s) == [] <==> Text.Ink(s) == []
    ensures Sanitize(s) != [] ==> !Text.IsSpace(Sanitize(s)[|Sanitize(s)| - 1])
  {
    Text.CollapseShape(s);
  }

  /** The fence stripper: strip, then remove the fences. */
  function StripFences(text: string): string
  {
    DropFences(Text.Strip(text))
  }

  /** Drop a leading "```json", then drop a trailing "```". */
  function DropFences(t: string): string
  {
    var u := if |t| >= 7 && t[..7] == "```json" then t[7..] else t;
    if |u| >= 3 && u[|u| - 3..] == "```" then u[..|u| - 3] else u
  }

  /** A fenced JSON block comes back as exactly its contents. */
  lemma StripFencesRoundTrip(x: string)
    ensures StripFences("```json" + x + "```") == x
  {
    var s := "```json" + x + "```";
    Text.StripKeeps(s);
    assert s[..7] == "```json" && s[7..] == x + "```";
    var u := x + "```";
    assert u[|u| - 3..] == "```" && u[..|u| - 3] == x;
  }

  /** Unfenced text is only stripped. */
  lemma StripFencesUnfenced(text: string)
    requires var t := Text.Strip(text);
      !(|t| >= 7 && t[..7] == "```json") && !(|t| >= 3 && t[|t| - 3..] == "```")
    ensures StripFences(text) == Text.Strip(text)
  {
    var t := Text.Strip(text);
    assert DropFences(t) == t;
  }
}
