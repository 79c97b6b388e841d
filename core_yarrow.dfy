/**
 * The yarrow-stalk engine of core/yarrow.py: a variant of the one in
 * divination/core/yarrow.py in which the finger stalk comes out of the
 * right pile, the trigram value takes any number of lines, and the King Wen
 * dictionary is written with repeated keys and a binary fallback.
 */
module CoreYarrow {
  import opened Wrappers
  import opened Draws
  import opened LineValues
  import opened Stalks
  import DivinationCoreYarrow

  const TotalStalks: int := 50
  const AsideStalk: int := 1
  const WorkingStalks: int := TotalStalks - AsideStalk

  /** get_value_from_remainder: 5 or 4 score 3, 9 or 8 score 2, anything else raises. */
  function GetValueFromRemainder(remainderCount: int): (r: Result<int, string>)
    ensures r.Ok? <==> remainderCount in {4, 5, 8, 9}
    ensures r.Ok? ==> (r.value == 3 <==> remainderCount < 6) && (r.value == 2 <==> remainderCount > 6)
  {
    if remainderCount == 5 || remainderCount == 4 then Ok(3)
    else if remainderCount == 9 || remainderCount == 8 then Ok(2)
    else Err("Invalid remainder count encountered")
  }

  /**
   * The piles of perform_division: the left pile is 1 for two stalks and
   * randint(1, stalks_in - 1) otherwise; the right pile holds the rest
   * minus the finger stalk, and may be empty.
   */
  function Piles(stalksIn: int, draw: nat): (piles: (int, int))
    requires stalksIn >= 2
    ensures 1 <= piles.0 <= stalksIn - 1 && piles.1 >= 0 && piles.0 + piles.1 == stalksIn - 1
  {
    var left := if stalksIn == 2 then 1 else RandInt(1, stalksIn - 1, draw);
    (left, stalksIn - left - 1)
  }

  /**
   * perform_division: the stage's total remainder (both remainders and the
   * finger stalk) and the stalks counted off, which go on to the next stage.
   * It raises below two stalks and nowhere else; what goes on is always
   * what came in less the remainder, and a multiple of 4.
   */
  function PerformDivision(stalksIn: int, draw: nat): (r: Result<(int, int), string>)
    ensures r.Ok? <==> stalksIn >= 2
    ensures r.Ok? ==> 3 <= r.value.0 <= 9 && r.value.1 == stalksIn - r.value.0 && r.value.1 % 4 == 0
  {
    if stalksIn < 2 then Err("Not enough stalks for division")
    else
      var (left, right) := Piles(stalksIn, draw);
      var fingerStalk := 1;
      if right < 0 then Err("Right pile count became invalid after taking finger stalk.")
      else
        var remainderLeft := Rem4(left);
        var countedLeft := left - remainderLeft;
        var remainderRight := Rem4(right);
        var countedRight := right - remainderRight;
        RemaindersOfSplit(left, right);
        Ok((remainderLeft + remainderRight + fingerStalk, countedLeft + countedRight))
  }

  /** From 49 stalks a stage leaves 5 or 9; from a positive multiple of 4 it leaves 4 or 8. */
  lemma DivisionOutcome(stalksIn: int, draw: nat)
    requires stalksIn == WorkingStalks || (stalksIn >= 4 && stalksIn % 4 == 0)
    ensures PerformDivision(stalksIn, draw).Ok?
    ensures stalksIn == WorkingStalks ==> PerformDivision(stalksIn, draw).value.0 in {5, 9}
    ensures stalksIn != WorkingStalks ==> PerformDivision(stalksIn, draw).value.0 in {4, 8}
  {
    var (left, right) := Piles(stalksIn, draw);
    RemaindersOfSplit(left, right);
    var sum := Rem4(left) + Rem4(right);
    RemainderSum(stalksIn, sum);
    DivisionUnfold(stalksIn, draw);
  }

  lemma RemainderSum(stalks: int, sum: int)
    requires stalks == WorkingStalks || stalks % 4 == 0
    requires 2 <= sum <= 8 && (stalks - 1 - sum) % 4 == 0
    ensures stalks == WorkingStalks ==> sum + 1 in {5, 9}
    ensures stalks != WorkingStalks ==> sum + 1 in {4, 8}
  {
    var q := stalks / 4;
    assert stalks - 1 - sum == 4 * q + (stalks % 4 - 1 - sum);
    assert (stalks % 4 - 1 - sum) % 4 == 0;
  }

  lemma DivisionUnfold(stalksIn: int, draw: nat)
    requires stalksIn >= 4
    ensures var piles := Piles(stalksIn, draw);
      PerformDivision(stalksIn, draw) == Ok((Rem4(piles.0) + Rem4(piles.1) + 1, piles.0 - Rem4(piles.0) + piles.1 - Rem4(piles.1)))
  {
  }

  function AddTo(v: int, r: Result<int, string>): Result<int, string>
  {
    match r
    case Ok(rest) => Ok(v + rest)
    case Err(e) => Err(e)
  }

  /** The sum of the stage values the remaining draws give from the given stalks. */
  function StageSum(stalks: int, draws: seq<nat>): Result<int, string>
    decreases |draws|
  {
    if draws == [] then Ok(0)
    else
      match PerformDivision(stalks, draws[0])
      case Err(e) => Err(e)
      case Ok(division) =>
        match GetValueFromRemainder(division.0)
        case Err(e) => Err(e)
        case Ok(v) => AddTo(v, StageSum(division.1, draws[1..]))
  }

  lemma AddToAdd(a: int, b: int, r: Result<int, string>)
    ensures AddTo(a, AddTo(b, r)) == AddTo(a + b, r)
  {
  }

  /** One stage from 49 stalks or a multiple of 4: it scores 2 or 3 and leaves a multiple of 4. */
  lemma StageStep(stalks: int, d: nat, rest: seq<nat>)
    requires stalks == WorkingStalks || (stalks >= 4 && stalks % 4 == 0)
    ensures PerformDivision(stalks, d).Ok?
    ensures var division := PerformDivision(stalks, d).value;
      GetValueFromRemainder(division.0).Ok? && GetValueFromRemainder(division.0).value in {2, 3} &&
      division.1 % 4 == 0 && division.1 >= stalks - 9 &&
      StageSum(stalks, [d] + rest) == AddTo(GetValueFromRemainder(division.0).value, StageSum(division.1, rest))
  {
    DivisionOutcome(stalks, d);
    assert ([d] + rest)[0] == d && ([d] + rest)[1..] == rest;
  }

  /** The line three draws give: the stage sum, which must be 6, 7, 8 or 9. */
  function LineOf(draws: seq<nat>): Result<int, string>
  {
    match StageSum(WorkingStalks, draws)
    case Ok(s) => if 6 <= s <= 9 then Ok(s) else Err("Invalid line value")
    case Err(e) => Err(e)
  }

  /**
   * generate_one_line: three stages from the 49 working stalks. The
   * checks for running out of stalks and for a sum outside 6..9 never
   * fire: the line is always 6, 7, 8 or 9.
   */
  method GenerateOneLine(draws: seq<nat>) returns (r: Result<int, string>)
    requires |draws| == 3
    ensures r == LineOf(draws)
    ensures r.Ok? && IsLineValue(r.value)
  {
    var currentStalks := WorkingStalks;
    var stageValues: seq<int> := [];
    for stage := 1 to 4
      invariant |stageValues| == stage - 1
      invariant 2 * (stage - 1) <= Sum(stageValues) <= 3 * (stage - 1)
      invariant stage == 1 ==> currentStalks == WorkingStalks
      invariant stage > 1 ==> currentStalks % 4 == 0
      invariant currentStalks >= 58 - 9 * stage
      invariant StageSum(WorkingStalks, draws) == AddTo(Sum(stageValues), StageSum(currentStalks, draws[stage - 1..]))
    {
      assert draws[stage - 1..] == [draws[stage - 1]] + draws[stage..];
      StageStep(currentStalks, draws[stage - 1], draws[stage..]);
      var division := PerformDivision(currentStalks, draws[stage - 1]).value;
      var totalRemainder, stalksForNextStage := division.0, division.1;
      var stageValue := GetValueFromRemainder(totalRemainder).value;
      AddToAdd(Sum(stageValues), stageValue, StageSum(stalksForNextStage, draws[stage..]));
      assert (stageValues + [stageValue])[..stage - 1] == stageValues;
      stageValues := stageValues + [stageValue];
      currentStalks := stalksForNextStage;
      if stage < 3 && stalksForNextStage <= 0 && currentStalks != 0 {
        r := Err("Ran out of stalks prematurely");
        return;
      }
    }
    assert draws[3..] == [];
    var finalLineValue := Sum(stageValues);
    if finalLineValue == 9 {
      r := Ok(9);
    } else if finalLineValue == 8 {
      r := Ok(8);
    } else if finalLineValue == 7 {
      r := Ok(7);
    } else if finalLineValue == 6 {
      r := Ok(6);
    } else {
      r := Err("Invalid line value");
    }
  }

  /** generate_hexagram: six lines, bottom first, each from its own three draws. */
  method GenerateHexagram(draws: seq<nat>) returns (hexagramLines: seq<int>)
    requires |draws| == 18
    ensures |hexagramLines| == 6 && AllLineValues(hexagramLines)
    ensures forall k :: 0 <= k < 6 ==> LineOf(draws[3 * k..3 * k + 3]) == Ok(hexagramLines[k])
  {
    hexagramLines := [];
    for lineNumber := 1 to 7
      invariant |hexagramLines| == lineNumber - 1 && AllLineValues(hexagramLines)
      invariant forall j :: 0 <= j < lineNumber - 1 ==> LineOf(draws[3 * j..3 * j + 3]) == Ok(hexagramLines[j])
    {
      var k := lineNumber - 1;
      var lineValue := GenerateOneLine(draws[3 * k..3 * k + 3]);
      hexagramLines := hexagramLines + [lineValue.value];
    }
  }

  /** get_trigram_value: bit i is set for every yang line i, whatever the number of lines. */
  function TrigramValue(lines: seq<int>): int
  {
    LsbValue(Bits(lines))
  }

  /** get_trigram_name: the same eight names as TRIGRAM_VALUES, "Unknown" otherwise. */
  function GetTrigramName(value: int): (name: string)
    ensures name == DivinationCoreYarrow.GetTrigramName(value)
  {
    var trigramNames := map[0 := "Earth", 1 := "Mountain", 2 := "Water", 3 := "Wind",
                            4 := "Thunder", 5 := "Fire", 6 := "Lake", 7 := "Heaven"];
    if value in trigramNames then trigramNames[value] else "Unknown"
  }

  /**
   * king_wen_map.get(f"{upper}_{lower}") as Python builds the dictionary:
   * the literal repeats sixteen keys and the later value wins, so "7_3" is
   * 10 (not 5), "3_7" 9 (not 6), "0_1" 24, "1_0" 27 (not 16 or 23), "3_6" 61,
   * "0_5" 36, "5_0" 35, "5_6" 50, "6_5" 49, "7_6" 44, "6_7" 43, "3_3" 57,
   * "6_1" 41, "1_6" 42 and "1_4" 62; the 48 keys that remain are these.
   */
  function KingWenAsWritten(upper: int, lower: int): Option<int>
  {
    match (upper, lower)
    case (7, 7) => Some(1)
    case (0, 0) => Some(2)
    case (7, 2) => Some(3)
    case (2, 7) => Some(4)
    case (0, 2) => Some(7)
    case (2, 0) => Some(8)
    case (3, 7) => Some(9)
    case (7, 3) => Some(10)
    case (0, 7) => Some(11)
    case (7, 0) => Some(12)
    case (7, 5) => Some(13)
    case (5, 7) => Some(14)
    case (6, 3) => Some(18)
    case (0, 1) => Some(24)
    case (1, 0) => Some(27)
    case (2, 2) => Some(29)
    case (5, 5) => Some(30)
    case (7, 1) => Some(33)
    case (1, 7) => Some(34)
    case (5, 0) => Some(35)
    case (0, 5) => Some(36)
    case (3, 5) => Some(37)
    case (5, 3) => Some(38)
    case (2, 1) => Some(39)
    case (1, 2) => Some(40)
    case (6, 1) => Some(41)
    case (1, 6) => Some(42)
    case (6, 7) => Some(43)
    case (7, 6) => Some(44)
    case (0, 6) => Some(45)
    case (6, 0) => Some(46)
    case (2, 6) => Some(47)
    case (6, 2) => Some(48)
    case (6, 5) => Some(49)
    case (5, 6) => Some(50)
    case (4, 1) => Some(52)
    case (3, 1) => Some(53)
    case (1, 3) => Some(54)
    case (4, 5) => Some(55)
    case (5, 4) => Some(56)
    case (3, 3) => Some(57)
    case (6, 6) => Some(58)
    case (3, 2) => Some(59)
    case (2, 3) => Some(60)
    case (3, 6) => Some(61)
    case (1, 4) => Some(62)
    case (2, 5) => Some(63)
    case (5, 2) => Some(64)
    case _ => None
  }

  /** get_hexagram_number as written: the dictionary above, or the bitwise value of all lines plus one. */
  function HexagramNumberAsWritten(lines: seq<int>): int
  {
    var lower := TrigramValue(PyTake(lines, 3));
    var upper := TrigramValue(PyDrop(lines, 3));
    match KingWenAsWritten(upper, lower)
    case Some(n) => n
    case None => LsbValue(Bits(lines)) + 1
  }

  /** Every number the dictionary holds lies in 1..64. */
  lemma KingWenAsWrittenRange(upper: int, lower: int)
    ensures KingWenAsWritten(upper, lower).Some? ==> 1 <= KingWenAsWritten(upper, lower).value <= 64
  {
  }

  /** Three equal lines read 7 when yang and 0 when yin. */
  lemma UniformTrigramValue(v: int)
    ensures TrigramValue([v, v, v]) == 7 * YangBit(v)
  {
    LsbValue3(Bits([v, v, v]));
  }

  /** Six equal lines: "7_7" for yang and "0_0" for yin. */
  lemma AsWrittenUniform(v: int)
    ensures HexagramNumberAsWritten([v, v, v, v, v, v]) == if IsYang(v) then 1 else 2
  {
    var lines := [v, v, v, v, v, v];
    assert PyTake(lines, 3) == [v, v, v] && PyDrop(lines, 3) == [v, v, v];
    UniformTrigramValue(v);
  }

  /** Six lines get a number in 1..64. */
  lemma AsWrittenInRange(lines: seq<int>)
    requires |lines| == 6
    ensures 1 <= HexagramNumberAsWritten(lines) <= 64
  {
    KingWenAsWrittenRange(TrigramValue(PyTake(lines, 3)), TrigramValue(PyDrop(lines, 3)));
    LsbValueRange(Bits(lines));
    assert Pow2(6) == 64;
  }

  /**
   * Six lines get a number in 1..64; six yang lines get 1 ("7_7") and six
   * yin lines 2 ("0_0").
   */
  lemma HexagramNumberAsWrittenRange(lines: seq<int>)
    requires |lines| == 6
    ensures 1 <= HexagramNumberAsWritten(lines) <= 64
    ensures HexagramNumberAsWritten([7, 7, 7, 7, 7, 7]) == 1
    ensures HexagramNumberAsWritten([9, 9, 9, 9, 9, 9]) == 1
    ensures HexagramNumberAsWritten([8, 8, 8, 8, 8, 8]) == 2
    ensures HexagramNumberAsWritten([6, 6, 6, 6, 6, 6]) == 2
  {
    AsWrittenInRange(lines);
    AsWrittenUniform(7);
    AsWrittenUniform(9);
    AsWrittenUniform(8);
    AsWrittenUniform(6);
  }

  /**
   * Because sixteen keys are missing, two different hexagrams share a
   * number: Wind under Earth ("0_3" is missing, binary 3 + 1) and Heaven
   * under Water ("2_7") are both numbered 4.
   */
  lemma HexagramNumberAsWrittenCollides()
    ensures HexagramNumberAsWritten([7, 7, 8, 8, 8, 8]) == 4
    ensures HexagramNumberAsWritten([7, 7, 7, 8, 7, 8]) == 4
    ensures Bits([7, 7, 8, 8, 8, 8]) != Bits([7, 7, 7, 8, 7, 8])
  {
    assert [7, 7, 8, 8, 8, 8][..3] == [7, 7, 8] && [7, 7, 8, 8, 8, 8][3..] == [8, 8, 8];
    assert [7, 7, 7, 8, 7, 8][..3] == [7, 7, 7] && [7, 7, 7, 8, 7, 8][3..] == [8, 7, 8];
    LsbValue3(Bits([7, 7, 8]));
    LsbValue3(Bits([8, 8, 8]));
    LsbValue3(Bits([7, 7, 7]));
    LsbValue3(Bits([8, 7, 8]));
    var b := Bits([7, 7, 8, 8, 8, 8]);
    assert b == [1, 1, 0, 0, 0, 0];
    assert b[1..][1..][1..][1..][1..][1..] == [];
    assert Bits([7, 7, 7, 8, 7, 8])[2] != b[2];
  }

  /**
   * get_hexagram_number with a dictionary that has all 64 keys (the one of
   * divination/core/yarrow.py, with its four misplaced numbers put back) and
   * trigram values read bottom line first;
   * the bitwise fallback stays for other line counts.
   */
  function GetHexagramNumber(lines: seq<int>): int
  {
    var lower := MsbValue(Bits(PyTake(lines, 3)));
    var upper := MsbValue(Bits(PyDrop(lines, 3)));
    match DivinationCoreYarrow.KingWenCorrected(upper, lower)
    case Some(n) => n
    case None => LsbValue(Bits(lines)) + 1
  }

  /**
   * For six lines the corrected numbering is the King Wen numbering, so it
   * lies in 1..64 and different yin/yang patterns get different numbers.
   */
  lemma GetHexagramNumberKingWen(lines: seq<int>, other: seq<int>)
    requires |lines| == 6 && |other| == 6
    ensures Ok(GetHexagramNumber(lines)) == DivinationCoreYarrow.GetHexagramNumber(lines)
    ensures 1 <= GetHexagramNumber(lines) <= 64
    ensures GetHexagramNumber(lines) == GetHexagramNumber(other) ==> Bits(lines) == Bits(other)
  {
    DivinationCoreYarrow.HexagramNumberDefined(lines);
    DivinationCoreYarrow.HexagramNumberDefined(other);
    MsbValueRange(Bits(lines[..3]));
    MsbValueRange(Bits(lines[3..]));
    MsbValueRange(Bits(other[..3]));
    MsbValueRange(Bits(other[3..]));
    DivinationCoreYarrow.KingWenCorrectedBijective();
    if GetHexagramNumber(lines) == GetHexagramNumber(other) {
      DivinationCoreYarrow.HexagramNumberInjective(lines, other);
    }
  }

  /** get_transformed_lines: the loop that appends 7 for a 6, 8 for a 9, and every other line unchanged. */
  method GetTransformedLines(lines: seq<int>) returns (transformed: seq<int>)
    ensures transformed == SettleAll(lines)
  {
    transformed := [];
    for i := 0 to |lines|
      invariant transformed == SettleAll(lines[..i])
    {
      var line := lines[i];
      if line == 6 {
        transformed := transformed + [7];
      } else if line == 9 {
        transformed := transformed + [8];
      } else {
        transformed := transformed + [line];
      }
    }
    assert lines[..|lines|] == lines;
  }

  datatype TrigramInfo = TrigramInfo(value: int, name: string)

  datatype Transformation = Transformation(hexagramNumber: int, lines: seq<int>)

  /** The dictionary cast_hexagram returns; `transformed` holds the two optional keys. */
  datatype CastResult = CastResult(
    lines: seq<int>,
    changingLineIndices: seq<int>,
    primaryHexagramNumber: int,
    lower: TrigramInfo,
    upper: TrigramInfo,
    transformed: Option<Transformation>)

  /**
   * cast_hexagram: cast six lines, number them with get_hexagram_number as
   * written, name their trigrams (lower = lines[:3], upper = lines[3:]) and,
   * exactly when some line changes, add the transformed lines and their
   * number.
   */
  method CastHexagram(draws: seq<nat>) returns (result: CastResult)
    requires |draws| == 18
    ensures |result.lines| == 6 && AllLineValues(result.lines)
    ensures forall k :: 0 <= k < 6 ==> LineOf(draws[3 * k..3 * k + 3]) == Ok(result.lines[k])
    ensures result.changingLineIndices == ChangingIndices(result.lines)
    ensures result.primaryHexagramNumber == HexagramNumberAsWritten(result.lines)
    ensures 1 <= result.primaryHexagramNumber <= 64
    ensures result.lower == TrigramInfo(TrigramValue(result.lines[..3]), GetTrigramName(TrigramValue(result.lines[..3])))
    ensures result.upper == TrigramInfo(TrigramValue(result.lines[3..]), GetTrigramName(TrigramValue(result.lines[3..])))
    ensures result.transformed.Some? <==> result.changingLineIndices != []
    ensures result.transformed.Some? ==>
      result.transformed.value.lines == SettleAll(result.lines)
      && result.transformed.value.hexagramNumber == HexagramNumberAsWritten(SettleAll(result.lines))
      && 1 <= result.transformed.value.hexagramNumber <= 64
  {
    var lines := GenerateHexagram(draws);
    var changingIndices := ChangingIndices(lines);
    var primaryHexNum := HexagramNumberAsWritten(lines);
    AsWrittenInRange(lines);
    var lowerValue := TrigramValue(lines[..3]);
    var upperValue := TrigramValue(lines[3..]);
    var transformed := None;
    if changingIndices != [] {
      var transformedLines := GetTransformedLines(lines);
      var transformedHexNum := HexagramNumberAsWritten(transformedLines);
      AsWrittenInRange(transformedLines);
      transformed := Some(Transformation(transformedHexNum, transformedLines));
    }
    result := CastResult(lines, changingIndices, primaryHexNum,
                         TrigramInfo(lowerValue, GetTrigramName(lowerValue)),
                         TrigramInfo(upperValue, GetTrigramName(upperValue)),
                         transformed);
  }

  /**
   * cast_hexagram with the corrected numbering: the same cast, with both
   * numbers replaced by the King Wen numbers, so that different yin/yang
   * patterns get different numbers.
   */
  method CastHexagramKingWen(draws: seq<nat>) returns (result: CastResult)
    requires |draws| == 18
    ensures |result.lines| == 6 && AllLineValues(result.lines)
    ensures forall k :: 0 <= k < 6 ==> LineOf(draws[3 * k..3 * k + 3]) == Ok(result.lines[k])
    ensures result.changingLineIndices == ChangingIndices(result.lines)
    ensures Ok(result.primaryHexagramNumber) == DivinationCoreYarrow.GetHexagramNumber(result.lines)
    ensures 1 <= result.primaryHexagramNumber <= 64
    ensures result.lower == TrigramInfo(TrigramValue(result.lines[..3]), GetTrigramName(TrigramValue(result.lines[..3])))
    ensures result.upper == TrigramInfo(TrigramValue(result.lines[3..]), GetTrigramName(TrigramValue(result.lines[3..])))
    ensures result.transformed.Some? <==> result.changingLineIndices != []
    ensures result.transformed.Some? ==>
      result.transformed.value.lines == SettleAll(result.lines)
      && Ok(result.transformed.value.hexagramNumber) == DivinationCoreYarrow.GetHexagramNumber(SettleAll(result.lines))
      && 1 <= result.transformed.value.hexagramNumber <= 64
  {
    result := CastHexagram(draws);
    var primaryHexNum := GetHexagramNumber(result.lines);
    GetHexagramNumberKingWen(result.lines, result.lines);
    var transformed := result.transformed;
    if transformed.Some? {
      var transformedLines := transformed.value.lines;
      GetHexagramNumberKingWen(transformedLines, transformedLines);
      transformed := Some(Transformation(GetHexagramNumber(transformedLines), transformedLines));
    }
    result := result.(primaryHexagramNumber := primaryHexNum, transformed := transformed);
  }
}
