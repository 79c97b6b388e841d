/**
 * The local fallback reading of frontend/src/services/hexagramService.ts,
 * built in the browser when the casting API cannot be reached: six lines
 * cut from Math.random() at fixed thresholds, the changing lines, the
 * transformed lines, and hexagram numbers drawn at random.
 */
module FrontendHexagramService {
  import opened Wrappers
  import opened Draws
  import opened LineValues
  import Text

  /** The yarrow-mode cascade: 9 below 3/16, 7 below 8/16, 8 below 15/16, 6 above. */
  function YarrowLine(rand: Unit): (v: int)
    ensures IsLineValue(v)
  {
    if rand < 0.1875 then 9
    else if rand < 0.1875 + 0.3125 then 7
    else if rand < 0.1875 + 0.3125 + 0.4375 then 8
    else 6
  }

  /** The coin-mode cascade: quarters for 9, 7, 8 and 6. */
  function CoinLine(rand: Unit): (v: int)
    ensures IsLineValue(v)
  {
    if rand < 0.25 then 9
    else if rand < 0.5 then 7
    else if rand < 0.75 then 8
    else 6
  }

  /** The interval [low, high) of draws that gives v in yarrow mode. */
  function YarrowBand(v: int): (band: (real, real))
    requires IsLineValue(v)
  {
    if v == 9 then (0.0, 3.0 / 16.0)
    else if v == 7 then (3.0 / 16.0, 8.0 / 16.0)
    else if v == 8 then (8.0 / 16.0, 15.0 / 16.0)
    else (15.0 / 16.0, 1.0)
  }

  /**
   * A draw gives v exactly when it falls in v's band; the bands are 3/16,
   * 5/16, 7/16 and 1/16 wide, the odds the comment gives for 9, 7, 8, 6.
   */
  lemma YarrowLineBands(rand: Unit, v: int)
    requires IsLineValue(v)
    ensures YarrowLine(rand) == v <==> YarrowBand(v).0 <= rand < YarrowBand(v).1
    ensures YarrowBand(9).1 - YarrowBand(9).0 == 3.0 / 16.0 && YarrowBand(7).1 - YarrowBand(7).0 == 5.0 / 16.0
    ensures YarrowBand(8).1 - YarrowBand(8).0 == 7.0 / 16.0 && YarrowBand(6).1 - YarrowBand(6).0 == 1.0 / 16.0
  {
  }

  /** In coin mode each line value takes a quarter of the draws, in the order 9, 7, 8, 6. */
  lemma CoinLineQuarters(rand: Unit, v: int)
    requires IsLineValue(v)
    ensures CoinLine(rand) == v <==>
      var q := if v == 9 then 0 else if v == 7 then 1 else if v == 8 then 2 else 3;
      q as real / 4.0 <= rand < (q + 1) as real / 4.0
  {
  }

  /** getRandomHexagramNumber: Math.floor(Math.random() * 64) + 1. */
  function RandomHexagramNumber(rand: Unit): (n: int)
    ensures 1 <= n <= 64
  {
    (rand * 64.0).Floor + 1
  }

  /** Every number is drawn by the 64th of [0, 1) it starts. */
  lemma RandomHexagramNumberCovers(n: int)
    requires 1 <= n <= 64
    ensures RandomHexagramNumber((n - 1) as real / 64.0) == n
  {
  }

  /** The line a mode cuts from one draw; every mode but "yarrow" uses the coin odds. */
  function LineFor(mode: string, rand: Unit): (v: int)
    ensures IsLineValue(v)
  {
    if mode == "yarrow" then YarrowLine(rand) else CoinLine(rand)
  }

  datatype HexagramData = HexagramData(number: int, name: string, judgment: string, image: string)

  datatype CastResult = CastResult(
    lines: seq<int>,
    changingLineIndices: seq<int>,
    primaryHexagramNumber: int,
    transformedLines: Option<seq<int>>,
    transformedHexagramNumber: Option<int>)

  datatype ReadingResponse = ReadingResponse(
    hexagramNumber: int,
    changingLineIndices: seq<int>,
    lines: seq<int>,
    castResult: CastResult,
    reading: HexagramData,
    relatingHexagram: Option<HexagramData>)

  /**
   * generateLocalFallback: one draw per line, the changing indices by
   * map-and-filter, a random primary number and, exactly when some line
   * changes, the transformed lines and a random relating number.
   */
  method GenerateLocalFallback(mode: string, rands: seq<Unit>, primaryDraw: Unit, relatingDraw: Unit)
    returns (response: ReadingResponse)
    requires |rands| == 6
    ensures |response.lines| == 6 && AllLineValues(response.lines)
    ensures forall i :: 0 <= i < 6 ==> response.lines[i] == LineFor(mode, rands[i])
    ensures response.castResult.lines == response.lines
    ensures response.changingLineIndices == response.castResult.changingLineIndices == ChangingIndices(response.lines)
    ensures response.hexagramNumber == response.castResult.primaryHexagramNumber == response.reading.number
    ensures 1 <= response.hexagramNumber <= 64
    ensures response.castResult.transformedLines.Some? <==> response.changingLineIndices != []
    ensures response.castResult.transformedHexagramNumber.Some? <==> response.changingLineIndices != []
    ensures response.relatingHexagram.Some? <==> response.changingLineIndices != []
    ensures response.castResult.transformedLines.Some? ==>
      response.castResult.transformedLines.value == SettleAll(response.lines)
    ensures response.relatingHexagram.Some? ==>
      response.relatingHexagram.value.number == response.castResult.transformedHexagramNumber.value
      && 1 <= response.relatingHexagram.value.number <= 64
  {
    var lines: seq<int> := [];
    for i := 0 to 6
      invariant |lines| == i
      invariant forall k :: 0 <= k < i ==> lines[k] == LineFor(mode, rands[k])
    {
      var rand := rands[i];
      if mode == "yarrow" {
        if rand < 0.1875 {
          lines := lines + [9];
        } else if rand < 0.1875 + 0.3125 {
          lines := lines + [7];
        } else if rand < 0.1875 + 0.3125 + 0.4375 {
          lines := lines + [8];
        } else {
          lines := lines + [6];
        }
      } else {
        if rand < 0.25 {
          lines := lines + [9];
        } else if rand < 0.5 {
          lines := lines + [7];
        } else if rand < 0.75 {
          lines := lines + [8];
        } else {
          lines := lines + [6];
        }
      }
    }
    var changingLineIndices := ChangingIndices(lines);
    var primaryHexagramNumber := RandomHexagramNumber(primaryDraw);
    var castResult := CastResult(lines, changingLineIndices, primaryHexagramNumber, None, None);
    var primaryHexagram := HexagramData(
      primaryHexagramNumber,
      "Fallback Hexagram " + Text.IntToString(primaryHexagramNumber),
      "Local fallback: API connection failed. This is a simulated reading.",
      "When the connection is lost, rely on inner resources.");
    var transformedHexagram: Option<HexagramData> := None;
    if |changingLineIndices| > 0 {
      var transformedLines := SettleAll(lines);
      var transformedHexagramNumber := RandomHexagramNumber(relatingDraw);
      castResult := castResult.(transformedLines := Some(transformedLines),
                                transformedHexagramNumber := Some(transformedHexagramNumber));
      transformedHexagram := Some(HexagramData(
        transformedHexagramNumber,
        "Fallback Transformed Hexagram " + Text.IntToString(transformedHexagramNumber),
        "Simulated relating hexagram due to API failure.",
        "Change reveals new perspectives."));
    }
    response := ReadingResponse(primaryHexagramNumber, changingLineIndices, lines, castResult, primaryHexagram, transformedHexagram);
  }
}
