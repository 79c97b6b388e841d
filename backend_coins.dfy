/**
 * The three-coin method of backend/core/coins.py.  Each coin counts 2 or 3,
 * and the sum of three coins goes through the table {6: 8, 7: 7, 8: 9, 9: 6}.
 * The numbering helpers it imports come from backend/core/yarrow.py, which
 * is not part of this model; DivinationCoreYarrow's get_hexagram_number as
 * written stands in for them.
 */
module BackendCoins {
  import opened Wrappers
  import opened Draws
  import opened LineValues
  import DivinationCoreYarrow
  import Text

  /** value_map as a partial table: a sum outside 6..9 has no entry (a KeyError). */
  function ValueMap(total: int): Option<int>
  {
    match total
    case 6 => Some(8)
    case 7 => Some(7)
    case 8 => Some(9)
    case 9 => Some(6)
    case _ => None
  }

  /** The table has exactly the keys 6..9, and it permutes them. */
  lemma ValueMapPermutes(total: int)
    ensures ValueMap(total).Some? <==> IsLineValue(total)
    ensures ValueMap(total).Some? ==> IsLineValue(ValueMap(total).value)
    ensures multiset{ValueMap(6).value, ValueMap(7).value, ValueMap(8).value, ValueMap(9).value}
         == multiset{6, 7, 8, 9}
  {
  }

  /** toss_three_coins: the sum of three coins is always a key of the table, so the lookup never fails. */
  function TossThreeCoins(coins: seq<Coin>): (v: int)
    requires |coins| == 3
    ensures IsLineValue(v)
    ensures ValueMap(Sum(coins)) == Some(v)
  {
    Sum3(coins);
    ValueMap(coins[0] as int + coins[1] + coins[2]).value
  }

  /** The line value of each of the eight equally likely tosses, in the order AllCoinTosses lists them. */
  function Outcomes(): (vs: seq<int>)
    ensures |vs| == 8
  {
    seq(8, i requires 0 <= i < 8 => TossThreeCoins(AllCoinTosses()[i]))
  }

  /** The eight tosses' lines, in the order AllCoinTosses lists them. */
  lemma OutcomesInOrder()
    ensures Outcomes() == [8, 7, 7, 9, 7, 9, 9, 6]
  {
    var t := AllCoinTosses();
    forall i | 0 <= i < 8
      ensures Outcomes()[i] == [8, 7, 7, 9, 7, 9, 9, 6][i]
    {
      Sum3(t[i]);
    }
  }

  /** Of the eight tosses, one gives 8, three give 7, three give 9 and one gives 6. */
  lemma OutcomeCounts()
    ensures multiset(Outcomes()) == multiset{8, 7, 7, 7, 9, 9, 9, 6}
    ensures multiset(Outcomes())[8] == 1 && multiset(Outcomes())[7] == 3
    ensures multiset(Outcomes())[9] == 3 && multiset(Outcomes())[6] == 1
  {
    OutcomesInOrder();
    assert multiset([8, 7, 7, 9, 7, 9, 9, 6]) == multiset{8, 7, 7, 7, 9, 9, 9, 6};
    OutcomeMultiplicities();
  }

  lemma OutcomeMultiplicities()
    ensures var m := multiset{8, 7, 7, 7, 9, 9, 9, 6};
      m[8] == 1 && m[7] == 3 && m[9] == 3 && m[6] == 1
  {
  }

  /** generate_hexagram: six tosses, one line per toss, bottom line first. */
  method GenerateHexagram(tosses: seq<seq<Coin>>) returns (lines: seq<int>)
    requires |tosses| == 6
    requires forall k :: 0 <= k < 6 ==> |tosses[k]| == 3
    ensures |lines| == 6 && AllLineValues(lines)
    ensures forall k :: 0 <= k < 6 ==> lines[k] == TossThreeCoins(tosses[k])
  {
    lines := [];
    for lineNum := 0 to 6
      invariant |lines| == lineNum && AllLineValues(lines)
      invariant forall k :: 0 <= k < lineNum ==> lines[k] == TossThreeCoins(tosses[k])
    {
      var lineValue := TossThreeCoins(tosses[lineNum]);
      lines := lines + [lineValue];
    }
  }

  /** The "cast_result" dictionary; `transformed` holds the two keys added only for changing lines. */
  datatype CastResult = CastResult(
    lines: seq<int>,
    changingLineIndices: seq<int>,
    primaryHexagramNumber: int,
    transformed: Option<(int, seq<int>)>)

  /** A successful reading: the cast and the texts of the primary and, if any, the transformed hexagram. */
  datatype Reading<E> = Reading(castResult: CastResult, primaryHexagram: E, transformedHexagram: Option<E>)

  /**
   * get_reading over the hexagram table `data`, numbering the cast with
   * get_hexagram_number as written.  An empty table gives "Failed to load
   * hexagram data"; a number missing from the table is the KeyError whose
   * text, the missing number, follows "Error generating reading: ".
   */
  method GetReading<E>(data: map<int, E>, tosses: seq<seq<Coin>>) returns (r: Result<Reading<E>, string>)
    requires |tosses| == 6
    requires forall k :: 0 <= k < 6 ==> |tosses[k]| == 3
    ensures data == map[] ==> r == Err("Failed to load hexagram data")
    ensures r.Ok? ==>
      var cast := r.value.castResult;
      |cast.lines| == 6 && AllLineValues(cast.lines)
      && (forall k :: 0 <= k < 6 ==> cast.lines[k] == TossThreeCoins(tosses[k]))
      && cast.changingLineIndices == ChangingIndices(cast.lines)
      && DivinationCoreYarrow.HexagramNumberAsWritten(cast.lines) == Ok(cast.primaryHexagramNumber)
      && 1 <= cast.primaryHexagramNumber <= 64
      && cast.primaryHexagramNumber in data
      && r.value.primaryHexagram == data[cast.primaryHexagramNumber]
      && (cast.transformed.Some? <==> cast.changingLineIndices != [])
      && (r.value.transformedHexagram.Some? <==> cast.changingLineIndices != [])
      && (cast.transformed.Some? ==>
            cast.transformed.value.1 == SettleAll(cast.lines)
            && DivinationCoreYarrow.HexagramNumberAsWritten(SettleAll(cast.lines)) == Ok(cast.transformed.value.0)
            && cast.transformed.value.0 in data
            && r.value.transformedHexagram == Some(data[cast.transformed.value.0]))
    ensures data != map[] ==>
      var lines := seq(6, k requires 0 <= k < 6 => TossThreeCoins(tosses[k]));
      var primary := DivinationCoreYarrow.HexagramNumberAsWritten(lines);
      var changed := DivinationCoreYarrow.HexagramNumberAsWritten(SettleAll(lines));
      primary.Ok? && changed.Ok? && 1 <= primary.value <= 64 && 1 <= changed.value <= 64
      && (r.Ok? <==> primary.value in data && (ChangingIndices(lines) != [] ==> changed.value in data))
      && (r.Err? ==> r.error == "Error generating reading: "
                               + Text.NatToString(if primary.value !in data then primary.value else changed.value))
  {
    if data == map[] {
      return Err("Failed to load hexagram data");
    }
    var lines := GenerateHexagram(tosses);
    assert lines == seq(6, k requires 0 <= k < 6 => TossThreeCoins(tosses[k]));
    var changingLines := ChangingIndices(lines);
    DivinationCoreYarrow.HexagramNumberAsWrittenDefined(lines);
    DivinationCoreYarrow.HexagramNumberAsWrittenDefined(SettleAll(lines));
    var primaryNumber := DivinationCoreYarrow.HexagramNumberAsWritten(lines).value;
    var transformed: Option<(int, seq<int>)> := None;
    if changingLines != [] {
      var transformedLines := SettleAll(lines);
      var transformedNumber := DivinationCoreYarrow.HexagramNumberAsWritten(transformedLines).value;
      transformed := Some((transformedNumber, transformedLines));
    }
    var castResult := CastResult(lines, changingLines, primaryNumber, transformed);
    if primaryNumber !in data {
      return Err("Error generating reading: " + Text.NatToString(primaryNumber));
    }
    var transformedHexagram: Option<E> := None;
    if changingLines != [] {
      if transformed.value.0 !in data {
        return Err("Error generating reading: " + Text.NatToString(transformed.value.0));
      }
      transformedHexagram := Some(data[transformed.value.0]);
    }
    r := Ok(Reading(castResult, data[primaryNumber], transformedHexagram));
  }
}
