/**
 * The three-coin method of divination/core/coins.py.  Each coin counts 2 or
 * 3, and the sum of three coins goes through the table {6: 6, 7: 8, 8: 7,
 * 9: 9}; the numbering helpers come from divination/core/yarrow.py
 * (DivinationCoreYarrow).
 */
module DivinationCoins {
  import opened Wrappers
  import opened Draws
  import opened LineValues
  import DivinationCoreYarrow
  import Text

  /** value_map as a partial table: a sum outside 6..9 has no entry (a KeyError). */
  function ValueMap(total: int): Option<int>
  {
    match total
    case 6 => Some(6)
    case 7 => Some(8)
    case 8 => Some(7)
    case 9 => Some(9)
    case _ => None
  }

  /** The table has exactly the keys 6..9; it swaps 7 and 8 and keeps 6 and 9. */
  lemma ValueMapPermutes(total: int)
    ensures ValueMap(total).Some? <==> IsLineValue(total)
    ensures ValueMap(total).Some? ==> IsLineValue(ValueMap(total).value)
    ensures ValueMap(total).Some? ==> (IsChanging(ValueMap(total).value) <==> IsChanging(total))
    ensures ValueMap(total).Some? && !IsChanging(total) ==> ValueMap(total).value == 15 - total
  {
  }

  /** toss_three_coins: the sum of three coins is always a key of the table, so the lookup never fails. */
  function TossThreeCoins(coins: seq<Coin>): (v: int)
    requires |coins| == 3
    ensures IsLineValue(v)
    ensures ValueMap(Sum(coins)) == Some(v)
  {
    Sum3(coins);
    ValueMap(coins[0] as int + coins[1] + coins[2]).value
  }

  /** The line value of each of the eight equally likely tosses, in the order AllCoinTosses lists them. */
  function Outcomes(): (vs: seq<int>)
    ensures |vs| == 8
  {
    seq(8, i requires 0 <= i < 8 => TossThreeCoins(AllCoinTosses()[i]))
  }

  /** The weights the module documentation gives, in sixteenths: 2 for 6 and 9, 6 for 7 and 8. */
  function DocumentedSixteenths(v: int): int
  {
    if v == 6 || v == 9 then 2 else if v == 7 || v == 8 then 6 else 0
  }

  /**
   * Of the eight tosses, one gives 6, three give 8, three give 7 and one
   * gives 9, which is the documented 2/16, 6/16, 6/16, 2/16.
   */
  lemma OutcomeProportions(v: int)
    ensures multiset(Outcomes())[v] * 16 == DocumentedSixteenths(v) * |Outcomes()|
  {
    OutcomeCounts();
    var m := multiset{6, 8, 8, 8, 7, 7, 7, 9};
    assert m[6] == 1 && m[7] == 3 && m[8] == 3 && m[9] == 1;
    if !IsLineValue(v) {
      assert m[v] == 0;
    }
  }

  /** The eight tosses' lines, in the order AllCoinTosses lists them. */
  lemma OutcomesInOrder()
    ensures Outcomes() == [6, 8, 8, 7, 8, 7, 7, 9]
  {
    var t := AllCoinTosses();
    forall i | 0 <= i < 8
      ensures Outcomes()[i] == [6, 8, 8, 7, 8, 7, 7, 9][i]
    {
      Sum3(t[i]);
    }
  }

  /** The line values of the eight tosses, with their multiplicities. */
  lemma OutcomeCounts()
    ensures multiset(Outcomes()) == multiset{6, 8, 8, 8, 7, 7, 7, 9}
  {
    OutcomesInOrder();
  }

  /** generate_hexagram: six tosses, one line per toss, bottom line first. */
  method GenerateHexagram(tosses: seq<seq<Coin>>) returns (lines: seq<int>)
    requires |tosses| == 6
    requires forall k :: 0 <= k < 6 ==> |tosses[k]| == 3
    ensures |lines| == 6 && AllLineValues(lines)
    ensures forall k :: 0 <= k < 6 ==> lines[k] == TossThreeCoins(tosses[k])
  {
    lines := [];
    for lineNum := 0 to 6
      invariant |lines| == lineNum && AllLineValues(lines)
      invariant forall k :: 0 <= k < lineNum ==> lines[k] == TossThreeCoins(tosses[k])
    {
      var lineValue := TossThreeCoins(tosses[lineNum]);
      lines := lines + [lineValue];
    }
  }

  /** The "cast_result" dictionary; `transformed` holds the two keys added only for changing lines. */
  datatype CastResult = CastResult(
    lines: seq<int>,
    changingLineIndices: seq<int>,
    primaryHexagramNumber: int,
    transformed: Option<(int, seq<int>)>)

  /** A successful reading: the cast and the texts of the primary and, if any, the transformed hexagram. */
  datatype Reading<E> = Reading(castResult: CastResult, primaryHexagram: E, transformedHexagram: Option<E>)

  /**
   * get_reading over the hexagram table `data`, numbering the cast with
   * get_hexagram_number as written.  An empty table gives "Failed to load
   * hexagram data"; a number missing from the table is the KeyError whose
   * text, the missing number, follows "Error generating reading: ".
   */
  method GetReading<E>(data: map<int, E>, tosses: seq<seq<Coin>>) returns (r: Result<Reading<E>, string>)
    requires |tosses| == 6
    requires forall k :: 0 <= k < 6 ==> |tosses[k]| == 3
    ensures data == map[] ==> r == Err("Failed to load hexagram data")
    ensures r.Ok? ==>
      var cast := r.value.castResult;
      |cast.lines| == 6 && AllLineValues(cast.lines)
      && (forall k :: 0 <= k < 6 ==> cast.lines[k] == TossThreeCoins(tosses[k]))
      && cast.changingLineIndices == ChangingIndices(cast.lines)
      && DivinationCoreYarrow.HexagramNumberAsWritten(cast.lines) == Ok(cast.primaryHexagramNumber)
      && 1 <= cast.primaryHexagramNumber <= 64
      && cast.primaryHexagramNumber in data
      && r.value.primaryHexagram == data[cast.primaryHexagramNumber]
      && (cast.transformed.Some? <==> cast.changingLineIndices != [])
      && (r.value.transformedHexagram.Some? <==> cast.changingLineIndices != [])
      && (cast.transformed.Some? ==>
            cast.transformed.value.1 == SettleAll(cast.lines)
            && DivinationCoreYarrow.HexagramNumberAsWritten(SettleAll(cast.lines)) == Ok(cast.transformed.value.0)
            && cast.transformed.value.0 in data
            && r.value.transformedHexagram == Some(data[cast.transformed.value.0]))
    ensures data != map[] ==>
      var lines := seq(6, k requires 0 <= k < 6 => TossThreeCoins(tosses[k]));
      var primary := DivinationCoreYarrow.HexagramNumberAsWritten(lines);
      var changed := DivinationCoreYarrow.HexagramNumberAsWritten(SettleAll(lines));
      primary.Ok? && changed.Ok? && 1 <= primary.value <= 64 && 1 <= changed.value <= 64
      && (r.Ok? <==> primary.value in data && (ChangingIndices(lines) != [] ==> changed.value in data))
      && (r.Err? ==> r.error == "Error generating reading: "
                               + Text.NatToString(if primary.value !in data then primary.value else changed.value))
  {
    if data == map[] {
      return Err("Failed to load hexagram data");
    }
    var lines := GenerateHexagram(tosses);
    assert lines == seq(6, k requires 0 <= k < 6 => TossThreeCoins(tosses[k]));
    var changingLines := ChangingIndices(lines);
    DivinationCoreYarrow.HexagramNumberAsWrittenDefined(lines);
    DivinationCoreYarrow.HexagramNumberAsWrittenDefined(SettleAll(lines));
    var primaryNumber := DivinationCoreYarrow.HexagramNumberAsWritten(lines).value;
    var transformed: Option<(int, seq<int>)> := None;
    if changingLines != [] {
      var transformedLines := SettleAll(lines);
      var transformedNumber := DivinationCoreYarrow.HexagramNumberAsWritten(transformedLines).value;
      transformed := Some((transformedNumber, transformedLines));
    }
    var castResult := CastResult(lines, changingLines, primaryNumber, transformed);
    if primaryNumber !in data {
      return Err("Error generating reading: " + Text.NatToString(primaryNumber));
    }
    var transformedHexagram: Option<E> := None;
    if changingLines != [] {
      if transformed.value.0 !in data {
        return Err("Error generating reading: " + Text.NatToString(transformed.value.0));
      }
      transformedHexagram := Some(data[transformed.value.0]);
    }
    r := Ok(Reading(castResult, data[primaryNumber], transformedHexagram));
  }
}
