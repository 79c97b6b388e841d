/**
 * The reading engine of packages/core/src/divination.py: one line per draw
 * (three coins or a pick from 6..9), a trigram per three lines looked up
 * through a three-character string written line 1 first, a hexagram number
 * looked up from the six-bit value of the lines, and a reading whose
 * relating hexagram is looked up only when some line changes.
 */
module PackagesDivination {
  import opened Wrappers
  import opened Draws
  import opened LineValues
  import Text
  import DivinationCoreYarrow

  datatype Trigram = Trigram(name: string, chinese: string, pinyin: string, attribute: string, element: string, image: string)

  datatype Trigrams = Trigrams(upper: Trigram, lower: Trigram)

  /** TRIGRAMS: the eight trigram records by key. */
  const TrigramTable: map<string, Trigram> :=
    map["heaven" := Trigram("Heaven", "乾", "qián", "Strong, Creative", "Metal", "Heaven, Sky"),
        "earth" := Trigram("Earth", "坤", "kūn", "Receptive, Yielding", "Earth", "Earth, Ground"),
        "thunder" := Trigram("Thunder", "震", "zhèn", "Arousing, Shocking", "Wood", "Thunder, Lightning"),
        "water" := Trigram("Water", "坎", "kǎn", "Dangerous, Flowing", "Water", "Water, Stream"),
        "mountain" := Trigram("Mountain", "艮", "gèn", "Still, Stopping", "Earth", "Mountain"),
        "wind" := Trigram("Wind", "巽", "xùn", "Gentle, Penetrating", "Wood", "Wind, Tree"),
        "fire" := Trigram("Fire", "離", "lí", "Light-giving, Clinging", "Fire", "Fire, Sun"),
        "lake" := Trigram("Lake", "兌", "duì", "Joyous, Open", "Metal", "Lake, Marsh")]

  /** BINARY_TO_TRIGRAM as written: "110" is given to Wind and "011" to Lake. */
  const BinaryToTrigramAsWritten: map<string, string> :=
    map["111" := "heaven", "000" := "earth", "100" := "thunder", "010" := "water",
        "001" := "mountain", "110" := "wind", "101" := "fire", "011" := "lake"]

  /**
   * BINARY_TO_TRIGRAM with Wind and Lake exchanged, so that every key is the
   * trigram's picture read bottom line first as Thunder's "100" and
   * Mountain's "001" already are: Wind has its yin line at the bottom
   * ("011"), Lake its yin line at the top ("110").
   */
  const BinaryToTrigram: map<string, string> :=
    map["111" := "heaven", "000" := "earth", "100" := "thunder", "010" := "water",
        "001" := "mountain", "011" := "wind", "101" := "fire", "110" := "lake"]

  /** The dictionary {6: 6, 7: 7, 8: 8, 9: 9} of the coin branch; other totals have no entry. */
  function CoinValueMap(total: int): Option<int>
  {
    match total
    case 6 => Some(6)
    case 7 => Some(7)
    case 8 => Some(8)
    case 9 => Some(9)
    case _ => None
  }

  /**
   * generate_line: "coin" sums three coins and looks the total up, which
   * always succeeds; any other mode takes the pick from 6..9.
   */
  function GenerateLine(mode: string, coins: seq<Coin>, pick: LineDraw): (v: int)
    requires |coins| == 3
    ensures IsLineValue(v)
    ensures mode == "coin" ==> CoinValueMap(Sum(coins)) == Some(v)
    ensures mode != "coin" ==> v == pick
  {
    if mode == "coin" then
      Sum3(coins);
      CoinValueMap(coins[0] as int + coins[1] + coins[2]).value
    else
      pick
  }

  /** In coin mode the line is the total of the three coins. */
  lemma CoinLineIsTotal(coins: seq<Coin>)
    requires |coins| == 3
    ensures GenerateLine("coin", coins, 6) == coins[0] as int + coins[1] as int + coins[2] as int
  {
    Sum3(coins);
  }

  /** The lines of the eight tosses, in the order they are listed. */
  lemma CoinLinesInOrder()
    ensures seq(8, i requires 0 <= i < 8 => GenerateLine("coin", AllCoinTosses()[i], 6)) == [6, 7, 7, 8, 7, 8, 8, 9]
  {
    var t := AllCoinTosses();
    forall i | 0 <= i < 8
      ensures GenerateLine("coin", t[i], 6) == [6, 7, 7, 8, 7, 8, 8, 9][i]
    {
      CoinLineIsTotal(t[i]);
    }
  }

  /** Over the eight equally likely coin tosses the coin mode gives one 6, three 7s, three 8s and one 9. */
  lemma CoinLineCounts()
    ensures var vs := seq(8, i requires 0 <= i < 8 => GenerateLine("coin", AllCoinTosses()[i], 6));
      multiset(vs) == multiset{6, 7, 7, 7, 8, 8, 8, 9}
  {
    CoinLinesInOrder();
    assert multiset([6, 7, 7, 8, 7, 8, 8, 9]) == multiset{6, 7, 7, 7, 8, 8, 8, 9};
  }

  /** The binary string of get_trigram_for_lines: '1' for a yang line, line 1 first. */
  function BinaryString(lines: seq<int>): (s: string)
    ensures |s| == |lines|
    ensures forall i :: 0 <= i < |lines| ==> s[i] == (if IsYang(lines[i]) then '1' else '0')
  {
    seq(|lines|, i requires 0 <= i < |lines| => if IsYang(lines[i]) then '1' else '0')
  }

  /** Equal binary strings mean equal yin/yang patterns. */
  lemma BinaryStringInjective(a: seq<int>, b: seq<int>)
    requires BinaryString(a) == BinaryString(b)
    ensures Bits(a) == Bits(b)
  {
    forall i | 0 <= i < |a|
      ensures Bits(a)[i] == Bits(b)[i]
    {
      assert BinaryString(a)[i] == BinaryString(b)[i];
    }
  }

  /** get_trigram_for_lines as written, with the "heaven" default. */
  function TrigramForLinesAsWritten(lines: seq<int>): (key: string)
    ensures key in TrigramTable
  {
    var binary := BinaryString(lines);
    if binary in BinaryToTrigramAsWritten then BinaryToTrigramAsWritten[binary] else "heaven"
  }

  /** get_trigram_for_lines over the corrected dictionary; the default is "heaven" as in the source. */
  function GetTrigramForLines(lines: seq<int>): (key: string)
    ensures key in TrigramTable
  {
    var binary := BinaryString(lines);
    if binary in BinaryToTrigram then BinaryToTrigram[binary] else "heaven"
  }

  /**
   * Three lines always find their string in the dictionary, so the default
   * is never taken, and the key names the trigram that TRIGRAM_VALUES of
   * divination/core/yarrow.py gives the same lines, read bottom line first.
   */
  lemma TrigramForLinesNames(lines: seq<int>)
    requires |lines| == 3
    ensures BinaryString(lines) in BinaryToTrigram
    ensures TrigramTable[GetTrigramForLines(lines)].name == DivinationCoreYarrow.GetTrigramName(MsbValue(Bits(lines)))
  {
    var b := Bits(lines);
    MsbValue3(b);
    var s := BinaryString(lines);
    assert s == [s[0], s[1], s[2]];
    assert b == [b[0], b[1], b[2]];
  }

  /** Different yin/yang patterns of three lines give different trigrams. */
  lemma TrigramForLinesInjective(a: seq<int>, b: seq<int>)
    requires |a| == 3 && |b| == 3
    requires GetTrigramForLines(a) == GetTrigramForLines(b)
    ensures Bits(a) == Bits(b)
  {
    TrigramForLinesNames(a);
    TrigramForLinesNames(b);
    MsbValueRange(Bits(a));
    MsbValueRange(Bits(b));
    DivinationCoreYarrow.TrigramNamesInvert();
    MsbValueInjective(Bits(a), Bits(b));
  }

  /**
   * As written, Wind's picture (yin, yang, yang from the bottom) is read as
   * "011" and named Lake, and Lake's picture as "110" and named Wind; the
   * corrected dictionary names both by their own trigram.
   */
  lemma WindLakeAsWritten()
    ensures TrigramForLinesAsWritten(DivinationCoreYarrow.LinesOf(DivinationCoreYarrow.Pictures["Wind"])) == "lake"
    ensures TrigramForLinesAsWritten(DivinationCoreYarrow.LinesOf(DivinationCoreYarrow.Pictures["Lake"])) == "wind"
    ensures GetTrigramForLines(DivinationCoreYarrow.LinesOf(DivinationCoreYarrow.Pictures["Wind"])) == "wind"
    ensures GetTrigramForLines(DivinationCoreYarrow.LinesOf(DivinationCoreYarrow.Pictures["Lake"])) == "lake"
  {
    assert DivinationCoreYarrow.LinesOf(DivinationCoreYarrow.Pictures["Wind"]) == [8, 7, 7];
    assert DivinationCoreYarrow.LinesOf(DivinationCoreYarrow.Pictures["Lake"]) == [7, 7, 8];
    assert BinaryString([8, 7, 7]) == "011";
    assert BinaryString([7, 7, 8]) == "110";
    assert BinaryToTrigramAsWritten["011"] == "lake" && BinaryToTrigramAsWritten["110"] == "wind";
  }

  /** get_trigrams_for_hexagram over the corrected dictionary: lower from lines[:3], upper from lines[3:]. */
  function GetTrigramsForHexagramCorrected(lines: seq<int>): (t: Trigrams)
    ensures t.lower in TrigramTable.Values && t.upper in TrigramTable.Values
  {
    var lowerKey := GetTrigramForLines(PyTake(lines, 3));
    var upperKey := GetTrigramForLines(PyDrop(lines, 3));
    Trigrams(TrigramTable[upperKey], TrigramTable[lowerKey])
  }

  /**
   * With the corrected dictionary, the two trigrams of six lines carry the
   * names divination/core/yarrow.py gives lines[..3] and lines[3..].
   */
  lemma TrigramsForHexagramCorrectedNames(lines: seq<int>)
    requires |lines| == 6
    ensures GetTrigramsForHexagramCorrected(lines).lower.name == DivinationCoreYarrow.GetTrigramName(MsbValue(Bits(lines[..3])))
    ensures GetTrigramsForHexagramCorrected(lines).upper.name == DivinationCoreYarrow.GetTrigramName(MsbValue(Bits(lines[3..])))
  {
    TrigramForLinesNames(lines[..3]);
    TrigramForLinesNames(lines[3..]);
  }

  /** The name a trigram gets from BINARY_TO_TRIGRAM as written: Wind and Lake exchanged, every other name kept. */
  function WindLakeSwapped(name: string): string
  {
    if name == "Wind" then "Lake" else if name == "Lake" then "Wind" else name
  }

  /**
   * As written, three lines still always find their string in the
   * dictionary, and the key names the trigram divination/core/yarrow.py
   * gives the same lines except that Wind and Lake are exchanged.
   */
  lemma TrigramForLinesAsWrittenNames(lines: seq<int>)
    requires |lines| == 3
    ensures BinaryString(lines) in BinaryToTrigramAsWritten
    ensures TrigramTable[TrigramForLinesAsWritten(lines)].name == WindLakeSwapped(DivinationCoreYarrow.GetTrigramName(MsbValue(Bits(lines))))
  {
    var b := Bits(lines);
    MsbValue3(b);
    var s := BinaryString(lines);
    assert s == [s[0], s[1], s[2]];
    assert b == [b[0], b[1], b[2]];
  }

  /** get_trigrams_for_hexagram as written: lower from lines[:3], upper from lines[3:]. */
  function GetTrigramsForHexagram(lines: seq<int>): (t: Trigrams)
    ensures t.lower in TrigramTable.Values && t.upper in TrigramTable.Values
  {
    var lowerKey := TrigramForLinesAsWritten(PyTake(lines, 3));
    var upperKey := TrigramForLinesAsWritten(PyDrop(lines, 3));
    Trigrams(TrigramTable[upperKey], TrigramTable[lowerKey])
  }

  /**
   * For six lines the two trigrams carry the names divination/core/yarrow.py
   * gives lines[..3] and lines[3..], with Wind and Lake exchanged.
   */
  lemma TrigramsForHexagramNames(lines: seq<int>)
    requires |lines| == 6
    ensures GetTrigramsForHexagram(lines).lower.name == WindLakeSwapped(DivinationCoreYarrow.GetTrigramName(MsbValue(Bits(lines[..3]))))
    ensures GetTrigramsForHexagram(lines).upper.name == WindLakeSwapped(DivinationCoreYarrow.GetTrigramName(MsbValue(Bits(lines[3..]))))
  {
    TrigramForLinesAsWrittenNames(lines[..3]);
    TrigramForLinesAsWrittenNames(lines[3..]);
  }

  /** A three-bit value with its bits in the opposite order. */
  function Rev3(v: int): int
  {
    match v
    case 0 => 0
    case 1 => 4
    case 2 => 2
    case 3 => 6
    case 4 => 1
    case 5 => 5
    case 6 => 3
    case 7 => 7
    case _ => v
  }

  /** Three bits read first-as-most-significant, reversed, are the same bits read first-as-least-significant. */
  lemma Rev3OfMsbValue(t: seq<int>)
    requires |t| == 3 && IsBits(t)
    ensures Rev3(MsbValue(t)) == LsbValue(t)
    ensures Rev3(LsbValue(t)) == MsbValue(t)
  {
    MsbValue3(t);
    LsbValue3(t);
  }

  /** king_wen_map of calculate_hexagram_number: the 64 entries of the dictionary. */
  function KingWenTable(decimal: int): Option<int>
  {
    match decimal
    case 0 => Some(2)
    case 1 => Some(24)
    case 2 => Some(7)
    case 3 => Some(19)
    case 4 => Some(15)
    case 5 => Some(36)
    case 6 => Some(46)
    case 7 => Some(11)
    case 8 => Some(16)
    case 9 => Some(51)
    case 10 => Some(40)
    case 11 => Some(54)
    case 12 => Some(62)
    case 13 => Some(55)
    case 14 => Some(32)
    case 15 => Some(34)
    case 16 => Some(8)
    case 17 => Some(3)
    case 18 => Some(29)
    case 19 => Some(60)
    case 20 => Some(39)
    case 21 => Some(63)
    case 22 => Some(48)
    case 23 => Some(5)
    case 24 => Some(45)
    case 25 => Some(17)
    case 26 => Some(47)
    case 27 => Some(58)
    case 28 => Some(31)
    case 29 => Some(49)
    case 30 => Some(28)
    case 31 => Some(43)
    case 32 => Some(23)
    case 33 => Some(27)
    case 34 => Some(4)
    case 35 => Some(41)
    case 36 => Some(52)
    case 37 => Some(22)
    case 38 => Some(18)
    case 39 => Some(26)
    case 40 => Some(35)
    case 41 => Some(21)
    case 42 => Some(64)
    case 43 => Some(38)
    case 44 => Some(56)
    case 45 => Some(30)
    case 46 => Some(50)
    case 47 => Some(14)
    case 48 => Some(20)
    case 49 => Some(42)
    case 50 => Some(59)
    case 51 => Some(61)
    case 52 => Some(53)
    case 53 => Some(37)
    case 54 => Some(57)
    case 55 => Some(9)
    case 56 => Some(12)
    case 57 => Some(25)
    case 58 => Some(6)
    case 59 => Some(10)
    case 60 => Some(33)
    case 61 => Some(13)
    case 62 => Some(44)
    case 63 => Some(1)
    case _ => None
  }

  /** The entries 0..7: upper trigram 0, read bottom line first. */
  lemma KingWenTableRow0(lo: int)
    requires 0 <= lo < 8
    ensures KingWenTable(0 + lo) == DivinationCoreYarrow.KingWenCorrected(Rev3(0), Rev3(lo))
  {
    if lo == 0 {
      assert DivinationCoreYarrow.KingWen(0, 0) == Some(2);
    } else if lo == 1 {
      assert DivinationCoreYarrow.KingWen(0, 4) == Some(24);
    } else if lo == 2 {
      assert DivinationCoreYarrow.KingWen(0, 2) == Some(7);
    } else if lo == 3 {
      assert DivinationCoreYarrow.KingWen(0, 6) == Some(19);
    } else if lo == 4 {
      assert DivinationCoreYarrow.KingWen(0, 1) == Some(15);
    } else if lo == 5 {
      assert DivinationCoreYarrow.KingWen(0, 5) == Some(36);
    } else if lo == 6 {
      assert DivinationCoreYarrow.KingWen(0, 3) == Some(46);
    } else if lo == 7 {
      assert DivinationCoreYarrow.KingWen(0, 7) == Some(11);
    }
  }

  /** The entries 8..15: upper trigram 1, read bottom line first. */
  lemma KingWenTableRow1(lo: int)
    requires 0 <= lo < 8
    ensures KingWenTable(8 + lo) == DivinationCoreYarrow.KingWenCorrected(Rev3(1), Rev3(lo))
  {
    if lo == 0 {
      assert DivinationCoreYarrow.KingWen(4, 0) == Some(16);
    } else if lo == 1 {
      assert DivinationCoreYarrow.KingWen(4, 4) == Some(51);
    } else if lo == 2 {
      assert DivinationCoreYarrow.KingWen(4, 2) == Some(40);
    } else if lo == 3 {
      assert DivinationCoreYarrow.KingWen(4, 6) == Some(54);
    } else if lo == 4 {
      assert DivinationCoreYarrow.KingWen(4, 1) == Some(62);
    } else if lo == 5 {
      assert DivinationCoreYarrow.KingWen(4, 5) == Some(55);
    } else if lo == 6 {
      assert DivinationCoreYarrow.KingWen(4, 3) == Some(32);
    } else if lo == 7 {
      assert DivinationCoreYarrow.KingWen(4, 7) == Some(34);
    }
  }

  /** The entries 16..23: upper trigram 2, read bottom line first. */
  lemma KingWenTableRow2(lo: int)
    requires 0 <= lo < 8
    ensures KingWenTable(16 + lo) == DivinationCoreYarrow.KingWenCorrected(Rev3(2), Rev3(lo))
  {
    if lo == 0 {
      assert DivinationCoreYarrow.KingWen(2, 0) == Some(8);
    } else if lo == 1 {
      assert DivinationCoreYarrow.KingWen(2, 4) == Some(3);
    } else if lo == 2 {
      assert DivinationCoreYarrow.KingWen(2, 2) == Some(29);
    } else if lo == 3 {
      assert DivinationCoreYarrow.KingWen(2, 6) == Some(48);
    } else if lo == 4 {
      assert DivinationCoreYarrow.KingWen(2, 1) == Some(39);
    } else if lo == 5 {
      assert DivinationCoreYarrow.KingWen(2, 5) == Some(63);
    } else if lo == 6 {
      assert DivinationCoreYarrow.KingWen(2, 3) == Some(60);
    } else if lo == 7 {
      assert DivinationCoreYarrow.KingWen(2, 7) == Some(5);
    }
  }

  /** The entries 24..31: upper trigram 3, read bottom line first. */
  lemma KingWenTableRow3(lo: int)
    requires 0 <= lo < 8
    ensures KingWenTable(24 + lo) == DivinationCoreYarrow.KingWenCorrected(Rev3(3), Rev3(lo))
  {
    if lo == 0 {
      assert DivinationCoreYarrow.KingWen(6, 0) == Some(45);
    } else if lo == 1 {
      assert DivinationCoreYarrow.KingWen(6, 4) == Some(17);
    } else if lo == 2 {
      assert DivinationCoreYarrow.KingWen(6, 2) == Some(47);
    } else if lo == 3 {
      assert DivinationCoreYarrow.KingWen(6, 6) == Some(58);
    } else if lo == 4 {
      assert DivinationCoreYarrow.KingWen(6, 1) == Some(31);
    } else if lo == 5 {
      assert DivinationCoreYarrow.KingWen(6, 5) == Some(49);
    } else if lo == 6 {
      assert DivinationCoreYarrow.KingWen(6, 3) == Some(28);
    } else if lo == 7 {
      assert DivinationCoreYarrow.KingWen(6, 7) == Some(43);
    }
  }

  /** The entries 32..39: upper trigram 4, read bottom line first. */
  lemma KingWenTableRow4(lo: int)
    requires 0 <= lo < 8
    ensures KingWenTable(32 + lo) == DivinationCoreYarrow.KingWenCorrected(Rev3(4), Rev3(lo))
  {
    if lo == 0 {
      assert DivinationCoreYarrow.KingWen(1, 0) == Some(23);
    } else if lo == 1 {
      assert DivinationCoreYarrow.KingWen(1, 4) == Some(27);
    } else if lo == 2 {
      assert DivinationCoreYarrow.KingWen(1, 2) == Some(4);
    } else if lo == 3 {
      assert DivinationCoreYarrow.KingWen(1, 6) == Some(41);
    } else if lo == 4 {
      assert DivinationCoreYarrow.KingWen(1, 1) == Some(52);
    } else if lo == 5 {
      assert DivinationCoreYarrow.KingWen(1, 5) == Some(22);
    } else if lo == 6 {
      assert DivinationCoreYarrow.KingWen(1, 3) == Some(18);
    } else if lo == 7 {
      assert DivinationCoreYarrow.KingWen(1, 7) == Some(26);
    }
  }

  /** The entries 40..47: upper trigram 5, read bottom line first. */
  lemma KingWenTableRow5(lo: int)
    requires 0 <= lo < 8
    ensures KingWenTable(40 + lo) == DivinationCoreYarrow.KingWenCorrected(Rev3(5), Rev3(lo))
  {
    if lo == 0 {
      assert DivinationCoreYarrow.KingWen(5, 0) == Some(35);
    } else if lo == 1 {
      assert DivinationCoreYarrow.KingWen(5, 4) == Some(21);
    } else if lo == 2 {
      assert DivinationCoreYarrow.KingWen(5, 2) == Some(64);
    } else if lo == 3 {
      assert DivinationCoreYarrow.KingWen(5, 6) == Some(50);
    } else if lo == 4 {
      assert DivinationCoreYarrow.KingWen(5, 1) == Some(56);
    } else if lo == 5 {
      assert DivinationCoreYarrow.KingWen(5, 5) == Some(30);
    } else if lo == 6 {
      assert DivinationCoreYarrow.KingWen(5, 3) == Some(38);
    } else if lo == 7 {
      assert DivinationCoreYarrow.KingWen(5, 7) == Some(14);
    }
  }

  /** The entries 48..55: upper trigram 6, read bottom line first. */
  lemma KingWenTableRow6(lo: int)
    requires 0 <= lo < 8
    ensures KingWenTable(48 + lo) == DivinationCoreYarrow.KingWenCorrected(Rev3(6), Rev3(lo))
  {
    if lo == 0 {
      assert DivinationCoreYarrow.KingWen(3, 0) == Some(20);
    } else if lo == 1 {
      assert DivinationCoreYarrow.KingWen(3, 4) == Some(42);
    } else if lo == 2 {
      assert DivinationCoreYarrow.KingWen(3, 2) == Some(59);
    } else if lo == 3 {
      assert DivinationCoreYarrow.KingWen(3, 6) == Some(61);
    } else if lo == 4 {
      assert DivinationCoreYarrow.KingWen(3, 1) == Some(53);
    } else if lo == 5 {
      assert DivinationCoreYarrow.KingWen(3, 5) == Some(37);
    } else if lo == 6 {
      assert DivinationCoreYarrow.KingWen(3, 3) == Some(57);
    } else if lo == 7 {
      assert DivinationCoreYarrow.KingWen(3, 7) == Some(9);
    }
  }

  /** The entries 56..63: upper trigram 7, read bottom line first. */
  lemma KingWenTableRow7(lo: int)
    requires 0 <= lo < 8
    ensures KingWenTable(56 + lo) == DivinationCoreYarrow.KingWenCorrected(Rev3(7), Rev3(lo))
  {
    if lo == 0 {
      assert DivinationCoreYarrow.KingWen(7, 0) == Some(12);
    } else if lo == 1 {
      assert DivinationCoreYarrow.KingWen(7, 4) == Some(25);
    } else if lo == 2 {
      assert DivinationCoreYarrow.KingWen(7, 2) == Some(6);
    } else if lo == 3 {
      assert DivinationCoreYarrow.KingWen(7, 6) == Some(10);
    } else if lo == 4 {
      assert DivinationCoreYarrow.KingWen(7, 1) == Some(33);
    } else if lo == 5 {
      assert DivinationCoreYarrow.KingWen(7, 5) == Some(13);
    } else if lo == 6 {
      assert DivinationCoreYarrow.KingWen(7, 3) == Some(44);
    } else if lo == 7 {
      assert DivinationCoreYarrow.KingWen(7, 7) == Some(1);
    }
  }

  /**
   * king_wen_map sends the decimals 0..63 one-to-one onto 1..64, read with
   * line 1 as the least significant bit: entry d is the King Wen number of
   * the upper trigram d / 8 under the lower trigram d % 8 (each bottom line
   * first in divination/core/yarrow.py's TRIGRAM_VALUES, hence Rev3).
   */
  lemma KingWenTableAgrees(decimal: int)
    requires 0 <= decimal < 64
    ensures KingWenTable(decimal) == DivinationCoreYarrow.KingWenCorrected(Rev3(decimal / 8), Rev3(decimal % 8))
    ensures KingWenTable(decimal).Some? && 1 <= KingWenTable(decimal).value <= 64
  {
    var hi, lo := decimal / 8, decimal % 8;
    assert decimal == 8 * hi + lo;
    KingWenTableEntry(hi, lo);
    DivinationCoreYarrow.KingWenCorrectedBijective();
  }

  /** Entry 8 * hi + lo, row by row. */
  lemma KingWenTableEntry(hi: int, lo: int)
    requires 0 <= hi < 8 && 0 <= lo < 8
    ensures KingWenTable(8 * hi + lo) == DivinationCoreYarrow.KingWenCorrected(Rev3(hi), Rev3(lo))
  {
    if hi == 0 { KingWenTableRow0(lo); }
    else if hi == 1 { KingWenTableRow1(lo); }
    else if hi == 2 { KingWenTableRow2(lo); }
    else if hi == 3 { KingWenTableRow3(lo); }
    else if hi == 4 { KingWenTableRow4(lo); }
    else if hi == 5 { KingWenTableRow5(lo); }
    else if hi == 6 { KingWenTableRow6(lo); }
    else { KingWenTableRow7(lo); }
  }

  /** The dictionary is one-to-one on 0..63. */
  lemma KingWenTableInjective(d1: int, d2: int)
    requires 0 <= d1 < 64 && 0 <= d2 < 64
    requires KingWenTable(d1) == KingWenTable(d2)
    ensures d1 == d2
  {
    var h1, l1, h2, l2 := d1 / 8, d1 % 8, d2 / 8, d2 % 8;
    assert d1 == 8 * h1 + l1 && d2 == 8 * h2 + l2;
    KingWenTableEntry(h1, l1);
    KingWenTableEntry(h2, l2);
    Rev3Involution(h1);
    Rev3Involution(l1);
    Rev3Involution(h2);
    Rev3Involution(l2);
    KingWenCorrectedOneToOne(Rev3(h1), Rev3(l1), Rev3(h2), Rev3(l2));
  }

  /** Reversing three bits twice gives them back. */
  lemma Rev3Involution(v: int)
    requires 0 <= v < 8
    ensures 0 <= Rev3(v) < 8 && Rev3(Rev3(v)) == v
  {
  }

  /** Two pairs of trigrams with the same corrected King Wen number are the same pair. */
  lemma KingWenCorrectedOneToOne(u1: int, l1: int, u2: int, l2: int)
    requires 0 <= u1 < 8 && 0 <= l1 < 8 && 0 <= u2 < 8 && 0 <= l2 < 8
    requires DivinationCoreYarrow.KingWenCorrected(u1, l1) == DivinationCoreYarrow.KingWenCorrected(u2, l2)
    ensures u1 == u2 && l1 == l2
  {
    DivinationCoreYarrow.KingWenCorrectedBijective();
  }

  /** king_wen_map.get(decimal, 1). */
  function KingWenLookup(decimal: int): int
  {
    match KingWenTable(decimal)
    case Some(n) => n
    case None => 1
  }

  /**
   * calculate_hexagram_number as written: int(binary, 2) makes line 1 the
   * most significant bit, while the dictionary's keys have line 1 as the
   * least significant; int('', 2) raises on no lines.
   */
  function CalculateHexagramNumberAsWritten(lines: seq<int>): Result<int, string>
  {
    if lines == [] then Err("invalid literal for int() with base 2: ''")
    else Ok(KingWenLookup(MsbValue(Bits(lines))))
  }

  /** calculate_hexagram_number with line 1 as the least significant bit, the order of the dictionary's keys. */
  function CalculateHexagramNumber(lines: seq<int>): Result<int, string>
  {
    if lines == [] then Err("invalid literal for int() with base 2: ''")
    else Ok(KingWenLookup(LsbValue(Bits(lines))))
  }

  /**
   * For six lines the corrected number is the King Wen number of
   * divination/core/yarrow.py: it lies in 1..64, the default 1 is never
   * used, and different yin/yang patterns get different numbers.
   */
  lemma CalculateHexagramNumberKingWen(lines: seq<int>)
    requires |lines| == 6
    ensures CalculateHexagramNumber(lines) == DivinationCoreYarrow.GetHexagramNumber(lines)
    ensures KingWenTable(LsbValue(Bits(lines))).Some?
    ensures 1 <= CalculateHexagramNumber(lines).value <= 64
  {
    var lower, upper := Bits(lines[..3]), Bits(lines[3..]);
    SixLinesDecimal(lines);
    Rev3OfMsbValue(lower);
    Rev3OfMsbValue(upper);
    KingWenTableAgrees(LsbValue(Bits(lines)));
    assert DivinationCoreYarrow.GetHexagramNumber(lines)
        == match DivinationCoreYarrow.KingWenCorrected(MsbValue(upper), MsbValue(lower))
           case Some(n) => Ok(n)
           case None => Err("Invalid trigram combination");
  }

  /** Six lines read bottom line first: the upper trigram gives the eights, the lower one the units. */
  lemma SixLinesDecimal(lines: seq<int>)
    requires |lines| == 6
    ensures var d := LsbValue(Bits(lines));
      0 <= d < 64 && d / 8 == LsbValue(Bits(lines[3..])) && d % 8 == LsbValue(Bits(lines[..3]))
  {
    var lower, upper := Bits(lines[..3]), Bits(lines[3..]);
    assert Bits(lines) == lower + upper;
    LsbValueAppend(lower, upper);
    assert Pow2(3) == 8;
    LsbValueRange(lower);
    LsbValueRange(upper);
  }

  /** Different yin/yang patterns of six lines get different numbers. */
  lemma CalculateHexagramNumberInjective(a: seq<int>, b: seq<int>)
    requires |a| == 6 && |b| == 6
    requires CalculateHexagramNumber(a) == CalculateHexagramNumber(b)
    ensures Bits(a) == Bits(b)
  {
    CalculateHexagramNumberKingWen(a);
    CalculateHexagramNumberKingWen(b);
    DivinationCoreYarrow.HexagramNumberInjective(a, b);
  }

  /**
   * For six lines, calculate_hexagram_number as written never falls back to
   * its default: it gives the King Wen number, in 1..64, of the hexagram
   * turned upside down.
   */
  lemma CalculateHexagramNumberAsWrittenKingWen(lines: seq<int>)
    requires |lines| == 6
    ensures KingWenTable(MsbValue(Bits(lines))).Some?
    ensures CalculateHexagramNumberAsWritten(lines) == CalculateHexagramNumber(Flip(lines))
    ensures CalculateHexagramNumberAsWritten(lines) == DivinationCoreYarrow.GetHexagramNumber(Flip(lines))
    ensures 1 <= CalculateHexagramNumberAsWritten(lines).value <= 64
  {
    assert Bits(Flip(lines)) == Flip(Bits(lines));
    MsbValueFlip(Bits(lines));
    CalculateHexagramNumberKingWen(Flip(lines));
  }

  /** As written, different yin/yang patterns of six lines still get different numbers. */
  lemma CalculateHexagramNumberAsWrittenInjective(a: seq<int>, b: seq<int>)
    requires |a| == 6 && |b| == 6
    requires CalculateHexagramNumberAsWritten(a) == CalculateHexagramNumberAsWritten(b)
    ensures Bits(a) == Bits(b)
  {
    MsbValueRange(Bits(a));
    MsbValueRange(Bits(b));
    assert Pow2(6) == 64;
    KingWenTableAgrees(MsbValue(Bits(a)));
    KingWenTableAgrees(MsbValue(Bits(b)));
    KingWenTableInjective(MsbValue(Bits(a)), MsbValue(Bits(b)));
    MsbValueInjective(Bits(a), Bits(b));
  }

  /** Six yang lines (decimal 63) are hexagram 1, six yin lines (decimal 0) hexagram 2, and Return (24) has its one yang line at the bottom. */
  lemma CalculateHexagramNumberExamples()
    ensures CalculateHexagramNumber([7, 7, 7, 7, 7, 7]) == Ok(1)
    ensures CalculateHexagramNumber([8, 8, 8, 8, 8, 8]) == Ok(2)
    ensures CalculateHexagramNumber([7, 8, 8, 8, 8, 8]) == Ok(24)
  {
    CalculateHexagramNumberKingWen([7, 7, 7, 7, 7, 7]);
    CalculateHexagramNumberKingWen([8, 8, 8, 8, 8, 8]);
    CalculateHexagramNumberKingWen([7, 8, 8, 8, 8, 8]);
    DivinationCoreYarrow.HexagramNumberExamples();
    DivinationCoreYarrow.TrigramBitOrderAsWritten();
  }

  /**
   * As written, the all-yang and all-yin lines still give 1 and 2, but one
   * yang line under five yin lines becomes decimal 32 and hexagram 23,
   * Splitting Apart, whose single yang line is at the top.
   */
  lemma CalculateHexagramNumberReversed()
    ensures CalculateHexagramNumberAsWritten([7, 7, 7, 7, 7, 7]) == Ok(1)
    ensures CalculateHexagramNumberAsWritten([8, 8, 8, 8, 8, 8]) == Ok(2)
    ensures CalculateHexagramNumberAsWritten([7, 8, 8, 8, 8, 8]) == Ok(23)
  {
    assert Bits([7, 7, 7, 7, 7, 7]) == [1, 1, 1, 1, 1, 1];
    SixOnesValue();
    assert Bits([8, 8, 8, 8, 8, 8]) == [0, 0, 0, 0, 0, 0];
    SixZerosValue();
    ReversedBottomYang();
  }

  /** One yang line at the bottom is read as the top bit: binary 100000, decimal 32. */
  lemma ReversedBottomYang()
    ensures MsbValue(Bits([7, 8, 8, 8, 8, 8])) == 32
  {
    var oneAtBottom := [1, 0, 0, 0, 0, 0];
    assert Bits([7, 8, 8, 8, 8, 8]) == oneAtBottom;
    MsbValueOfLeadingOne(5);
    assert [1] + seq(5, _ => 0) == oneAtBottom && Pow2(5) == 32;
  }

  /** The fields of a loaded hexagram that the reading logic touches; the texts stay abstract. */
  datatype HexagramData = HexagramData(number: int, name: string, text: string, trigrams: Option<Trigrams>)

  datatype ReadingResponse = ReadingResponse(
    hexagramNumber: int,
    changingLines: seq<int>,
    lines: seq<int>,
    reading: HexagramData,
    relatingHexagram: Option<HexagramData>)

  /** The draws behind one line: three coins for "coin" mode, one pick otherwise. */
  datatype LineDraws = LineDraws(coins: seq<Coin>, pick: LineDraw)

  predicate WellFormed(draws: seq<LineDraws>)
  {
    |draws| == 6 && forall k :: 0 <= k < 6 ==> |draws[k].coins| == 3
  }

  /** The six lines of generate_reading, line 1 first. */
  function CastLines(mode: string, draws: seq<LineDraws>): (lines: seq<int>)
    requires WellFormed(draws)
    ensures |lines| == 6 && AllLineValues(lines)
    ensures forall k :: 0 <= k < 6 ==> lines[k] == GenerateLine(mode, draws[k].coins, draws[k].pick)
    ensures CalculateHexagramNumberAsWritten(lines).Ok?
    ensures 1 <= CalculateHexagramNumberAsWritten(lines).value <= 64
    ensures DivinationCoreYarrow.GetHexagramNumber(lines).Ok?
    ensures 1 <= DivinationCoreYarrow.GetHexagramNumber(lines).value <= 64
    ensures CalculateHexagramNumber(lines) == DivinationCoreYarrow.GetHexagramNumber(lines)
  {
    var lines := seq(6, k requires 0 <= k < 6 => GenerateLine(mode, draws[k].coins, draws[k].pick));
    DivinationCoreYarrow.HexagramNumberDefined(lines);
    CalculateHexagramNumberKingWen(lines);
    CalculateHexagramNumberAsWrittenKingWen(lines);
    lines
  }

  /**
   * The relating hexagram of generate_reading as written: the settled lines
   * numbered by calculate_hexagram_number, with their trigrams, if the table
   * has that number.
   */
  function RelatingHexagram(lines: seq<int>, readings: map<string, HexagramData>): (h: Option<HexagramData>)
    requires |lines| == 6
    ensures CalculateHexagramNumberAsWritten(SettleAll(lines)).Ok?
    ensures var relating := CalculateHexagramNumberAsWritten(SettleAll(lines)).value;
      var key := Text.NatToString(relating);
      1 <= relating <= 64
      && (h.Some? <==> key in readings)
      && (h.Some? ==> h.value == readings[key].(trigrams := Some(GetTrigramsForHexagram(SettleAll(lines)))))
  {
    var transformedLines := SettleAll(lines);
    CalculateHexagramNumberAsWrittenKingWen(transformedLines);
    var relatingKey := Text.NatToString(CalculateHexagramNumberAsWritten(transformedLines).value);
    if relatingKey in readings
    then Some(readings[relatingKey].(trigrams := Some(GetTrigramsForHexagram(transformedLines))))
    else None
  }

  /**
   * generate_reading as written, over the readings table keyed by
   * str(number).  The primary hexagram must be in the table (otherwise the
   * ValueError that ends the process); it gets the trigrams of the lines.
   * The relating hexagram is looked up only when some line changes, and is
   * None when its number is missing.
   */
  function GenerateReading(mode: string, draws: seq<LineDraws>, readings: map<string, HexagramData>): (r: Result<ReadingResponse, string>)
    requires WellFormed(draws)
    ensures var lines := CastLines(mode, draws);
      r.Ok? <==> Text.NatToString(CalculateHexagramNumberAsWritten(lines).value) in readings
    ensures r.Err? ==> r.error == "Hexagram " + Text.NatToString(CalculateHexagramNumberAsWritten(CastLines(mode, draws)).value) + " not found in readings data"
    ensures r.Ok? ==> r.value.lines == CastLines(mode, draws)
    ensures r.Ok? ==> CalculateHexagramNumberAsWritten(r.value.lines) == Ok(r.value.hexagramNumber)
    ensures r.Ok? ==> 1 <= r.value.hexagramNumber <= 64
    ensures r.Ok? ==> r.value.changingLines == ChangingLineNumbers(r.value.lines)
    ensures r.Ok? ==>
      r.value.reading == readings[Text.NatToString(r.value.hexagramNumber)].(trigrams := Some(GetTrigramsForHexagram(r.value.lines)))
    ensures r.Ok? ==>
      r.value.relatingHexagram == if r.value.changingLines == [] then None else RelatingHexagram(r.value.lines, readings)
  {
    var lines := CastLines(mode, draws);
    var hexagramNumber := CalculateHexagramNumberAsWritten(lines).value;
    var changingLines := ChangingLineNumbers(lines);
    var key := Text.NatToString(hexagramNumber);
    if key !in readings then
      Err("Hexagram " + key + " not found in readings data")
    else
      var reading := readings[key].(trigrams := Some(GetTrigramsForHexagram(lines)));
      var relatingHexagram := if changingLines == [] then None else RelatingHexagram(lines, readings);
      Ok(ReadingResponse(hexagramNumber, changingLines, lines, reading, relatingHexagram))
  }

  /** The relating hexagram with the corrected number and trigrams. */
  function RelatingHexagramCorrected(lines: seq<int>, readings: map<string, HexagramData>): (h: Option<HexagramData>)
    requires |lines| == 6
    ensures DivinationCoreYarrow.GetHexagramNumber(SettleAll(lines)).Ok?
    ensures var relating := DivinationCoreYarrow.GetHexagramNumber(SettleAll(lines)).value;
      var key := Text.NatToString(relating);
      1 <= relating <= 64
      && (h.Some? <==> key in readings)
      && (h.Some? ==> h.value == readings[key].(trigrams := Some(GetTrigramsForHexagramCorrected(SettleAll(lines)))))
  {
    var transformedLines := SettleAll(lines);
    CalculateHexagramNumberKingWen(transformedLines);
    DivinationCoreYarrow.HexagramNumberDefined(transformedLines);
    var relatingKey := Text.NatToString(CalculateHexagramNumber(transformedLines).value);
    if relatingKey in readings
    then Some(readings[relatingKey].(trigrams := Some(GetTrigramsForHexagramCorrected(transformedLines))))
    else None
  }

  /**
   * generate_reading with line 1 as the least significant bit of the
   * number and the corrected trigram dictionary: the primary and relating
   * hexagrams are the King Wen numbers of divination/core/yarrow.py.
   */
  function GenerateReadingCorrected(mode: string, draws: seq<LineDraws>, readings: map<string, HexagramData>): (r: Result<ReadingResponse, string>)
    requires WellFormed(draws)
    ensures var lines := CastLines(mode, draws);
      r.Ok? <==> Text.NatToString(DivinationCoreYarrow.GetHexagramNumber(lines).value) in readings
    ensures r.Err? ==> r.error == "Hexagram " + Text.NatToString(DivinationCoreYarrow.GetHexagramNumber(CastLines(mode, draws)).value) + " not found in readings data"
    ensures r.Ok? ==> r.value.lines == CastLines(mode, draws)
    ensures r.Ok? ==> DivinationCoreYarrow.GetHexagramNumber(r.value.lines) == Ok(r.value.hexagramNumber)
    ensures r.Ok? ==> r.value.changingLines == ChangingLineNumbers(r.value.lines)
    ensures r.Ok? ==>
      r.value.reading == readings[Text.NatToString(r.value.hexagramNumber)].(trigrams := Some(GetTrigramsForHexagramCorrected(r.value.lines)))
    ensures r.Ok? ==>
      r.value.relatingHexagram == if r.value.changingLines == [] then None else RelatingHexagramCorrected(r.value.lines, readings)
  {
    var lines := CastLines(mode, draws);
    var hexagramNumber := CalculateHexagramNumber(lines).value;
    var changingLines := ChangingLineNumbers(lines);
    var key := Text.NatToString(hexagramNumber);
    if key !in readings then
      Err("Hexagram " + key + " not found in readings data")
    else
      var reading := readings[key].(trigrams := Some(GetTrigramsForHexagramCorrected(lines)));
      var relatingHexagram := if changingLines == [] then None else RelatingHexagramCorrected(lines, readings);
      Ok(ReadingResponse(hexagramNumber, changingLines, lines, reading, relatingHexagram))
  }

  /**
   * A reading's changing lines are exactly the 1-based positions of its 6s
   * and 9s, and its relating hexagram, when there is one, is that of the
   * settled lines, which differ from the primary lines exactly there.
   */
  lemma ReadingChangingLines(mode: string, draws: seq<LineDraws>, readings: map<string, HexagramData>)
    requires WellFormed(draws)
    requires GenerateReading(mode, draws, readings).Ok?
    ensures var res := GenerateReading(mode, draws, readings).value;
      (forall n :: n in res.changingLines <==> 1 <= n <= 6 && IsChanging(res.lines[n - 1]))
      && (res.relatingHexagram.Some? ==>
            forall n :: 1 <= n <= 6 ==> (SettleAll(res.lines)[n - 1] != res.lines[n - 1] <==> n in res.changingLines))
  {
    var res := GenerateReading(mode, draws, readings).value;
    ChangingLineNumbersExact(res.lines);
  }

  /** A one followed by n zeros, read first-as-most-significant, is Pow2(n). */
  lemma {:induction false} MsbValueOfLeadingOne(n: nat)
    ensures MsbValue([1] + seq(n, _ => 0)) == Pow2(n)
  {
    if n > 0 {
      MsbValueOfLeadingOne(n - 1);
      assert ([1] + seq(n, _ => 0))[..n] == [1] + seq(n - 1, _ => 0);
    }
  }
}
