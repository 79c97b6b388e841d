/**
 * The yarrow-stalk engine of divination/core/yarrow.py: three divisions of
 * the 49 working stalks give one line, six lines give a hexagram, and the
 * two trigram values are looked up in the King Wen table.
 */
module DivinationCoreYarrow {
  import opened Wrappers
  import opened Draws
  import opened LineValues
  import opened Stalks
  import Text

  const TotalStalks: int := 50
  const AsideStalk: int := 1
  /** The 49 stalks that take part in the divination once one is set aside. */
  const WorkingStalks: int := TotalStalks - AsideStalk

  /** TRIGRAM_VALUES: each trigram's name and its three-bit value. */
  const TrigramValues: map<string, int> :=
    map["Earth" := 0, "Mountain" := 1, "Water" := 2, "Wind" := 3,
        "Thunder" := 4, "Fire" := 5, "Lake" := 6, "Heaven" := 7]

  /** TRIGRAM_NAMES, the inverse dictionary of TRIGRAM_VALUES. */
  const TrigramNames: map<int, string> :=
    map[0 := "Earth", 1 := "Mountain", 2 := "Water", 3 := "Wind",
        4 := "Thunder", 5 := "Fire", 6 := "Lake", 7 := "Heaven"]

  /** TRIGRAM_NAMES really is the inverse of TRIGRAM_VALUES. */
  lemma TrigramNamesInvert()
    ensures forall name :: name in TrigramValues ==> TrigramValues[name] in TrigramNames && TrigramNames[TrigramValues[name]] == name
    ensures forall v :: v in TrigramNames ==> TrigramNames[v] in TrigramValues && TrigramValues[TrigramNames[v]] == v
    ensures forall v :: v in TrigramNames <==> 0 <= v < 8
  {
  }

  /** get_trigram_name: the trigram's traditional name, "Unknown" outside 0..7. */
  function GetTrigramName(value: int): (name: string)
    ensures 0 <= value < 8 ==> name in TrigramValues && TrigramValues[name] == value
    ensures !(0 <= value < 8) ==> name == "Unknown"
  {
    TrigramNamesInvert();
    if value in TrigramNames then TrigramNames[value] else "Unknown"
  }

  /** get_value_from_remainder: a small remainder (4 or 5) scores 3, a large one (8 or 9) scores 2. */
  function GetValueFromRemainder(remainderCount: int): (r: Result<int, string>)
    ensures r.Ok? <==> remainderCount in {4, 5, 8, 9}
    ensures r.Ok? ==> (r.value == 3 <==> remainderCount < 6) && (r.value == 2 <==> remainderCount > 6)
  {
    if remainderCount in {4, 5} then Ok(3)
    else if remainderCount in {8, 9} then Ok(2)
    else Err("Invalid remainder count")
  }

  /**
   * The two piles of perform_division: the finger stalk is taken, the
   * right pile is randint(1, remaining - 1) and the left pile the rest.
   */
  function Piles(stalksIn: int, draw: nat): (piles: (int, int))
    requires stalksIn >= 4
    ensures piles.0 >= 1 && piles.1 >= 1 && piles.0 + piles.1 == stalksIn - 1
  {
    var remaining := stalksIn - 1;
    var right := RandInt(1, remaining - 1, draw);
    (remaining - right, right)
  }

  /**
   * perform_division: the total remainder (both piles' remainders and the
   * finger stalk) and the stalks carried to the next division.
   */
  function PerformDivision(stalksIn: int, draw: nat): (r: Result<(int, int), string>)
    ensures stalksIn < 4 ==> r.Err?
    ensures r.Ok? ==> r.value.0 in {4, 5, 8, 9} && r.value.1 == stalksIn - r.value.0
  {
    if stalksIn < 4 then Err("Not enough stalks for division")
    else
      var fingerStalk := 1;
      var (left, right) := Piles(stalksIn, draw);
      var remainderLeft := Rem4(left);
      var remainderRight := Rem4(right);
      var totalRemainder := remainderLeft + remainderRight + fingerStalk;
      var stalksForNext := left - remainderLeft + right - remainderRight;
      if totalRemainder !in {4, 5, 8, 9} then Err("Invalid total remainder")
      else Ok((totalRemainder, stalksForNext))
  }

  /** The remainders of a split of n - 1 stalks, against n modulo 4. */
  lemma RemainderModFour(n: int, sum: int)
    requires 2 <= sum <= 8 && (n - 1 - sum) % 4 == 0
    ensures sum + 1 in {4, 5, 8, 9} <==> n % 4 in {0, 1}
    ensures n % 4 == 1 ==> sum in {4, 8}
    ensures n % 4 == 0 ==> sum in {3, 7}
  {
    var q, r := n / 4, n % 4;
    assert n - 1 - sum == 4 * q + (r - 1 - sum);
    assert (r - 1 - sum) % 4 == 0;
  }

  /** perform_division for at least four stalks, in terms of the two piles' remainders. */
  lemma DivisionUnfold(stalksIn: int, draw: nat)
    requires stalksIn >= 4
    ensures var piles := Piles(stalksIn, draw);
      var sum := Rem4(piles.0) + Rem4(piles.1);
      PerformDivision(stalksIn, draw)
        == if sum + 1 in {4, 5, 8, 9} then Ok((sum + 1, stalksIn - 1 - sum)) else Err("Invalid total remainder")
  {
  }

  /**
   * A division succeeds exactly when at least four stalks come in and
   * their number is 0 or 1 modulo 4: from 49 the total remainder is 5 or 9,
   * from a multiple of 4 it is 4 or 8, and what is carried on is always a
   * multiple of 4.
   */
  lemma DivisionOutcome(stalksIn: int, draw: nat)
    ensures PerformDivision(stalksIn, draw).Ok? <==> stalksIn >= 4 && stalksIn % 4 in {0, 1}
    ensures stalksIn >= 4 && stalksIn % 4 == 1 ==> PerformDivision(stalksIn, draw).value.0 in {5, 9}
    ensures stalksIn >= 4 && stalksIn % 4 == 0 ==> PerformDivision(stalksIn, draw).value.0 in {4, 8}
    ensures PerformDivision(stalksIn, draw).Ok? ==> PerformDivision(stalksIn, draw).value.1 % 4 == 0
    ensures PerformDivision(stalksIn, draw).Ok? ==> PerformDivision(stalksIn, draw).value.1 == stalksIn - PerformDivision(stalksIn, draw).value.0
  {
    if stalksIn >= 4 {
      var piles := Piles(stalksIn, draw);
      RemaindersOfSplit(piles.0, piles.1);
      var sum := Rem4(piles.0) + Rem4(piles.1);
      RemainderModFour(stalksIn, sum);
      DivisionUnfold(stalksIn, draw);
    }
  }

  function AddTo(v: int, r: Result<int, string>): Result<int, string>
  {
    match r
    case Ok(rest) => Ok(v + rest)
    case Err(e) => Err(e)
  }

  /** The line that the remaining draws give from the given stalks: the sum of the divisions' scores. */
  function LineOf(stalks: int, draws: seq<nat>): Result<int, string>
    decreases |draws|
  {
    if draws == [] then Ok(0)
    else
      match PerformDivision(stalks, draws[0])
      case Err(e) => Err(e)
      case Ok(division) =>
        match GetValueFromRemainder(division.0)
        case Err(e) => Err(e)
        case Ok(v) => AddTo(v, LineOf(division.1, draws[1..]))
  }

  lemma AddToAdd(a: int, b: int, r: Result<int, string>)
    ensures AddTo(a, AddTo(b, r)) == AddTo(a + b, r)
  {
  }

  /** One division from a count of the form 4k or 4k + 1: it scores 2 or 3 and leaves a multiple of 4. */
  lemma StageStep(stalks: int, d: nat, rest: seq<nat>)
    requires stalks >= 4 && stalks % 4 in {0, 1}
    ensures PerformDivision(stalks, d).Ok?
    ensures var division := PerformDivision(stalks, d).value;
      GetValueFromRemainder(division.0).Ok? && GetValueFromRemainder(division.0).value in {2, 3} &&
      division.1 % 4 == 0 && division.1 >= stalks - 9 &&
      LineOf(stalks, [d] + rest) == AddTo(GetValueFromRemainder(division.0).value, LineOf(division.1, rest))
  {
    DivisionOutcome(stalks, d);
    assert ([d] + rest)[0] == d && ([d] + rest)[1..] == rest;
  }

  /**
   * generate_line: three divisions starting from the 49 working stalks.
   * It never raises and always gives 6, 7, 8 or 9.
   */
  method GenerateLine(draws: seq<nat>) returns (r: Result<int, string>)
    requires |draws| == 3
    ensures r == LineOf(WorkingStalks, draws)
    ensures r.Ok? && IsLineValue(r.value)
  {
    var currentStalks := WorkingStalks;
    var values: seq<int> := [];
    for stage := 0 to 3
      invariant |values| == stage
      invariant 2 * stage <= Sum(values) <= 3 * stage
      invariant currentStalks >= 49 - 9 * stage
      invariant stage == 0 ==> currentStalks == WorkingStalks
      invariant stage > 0 ==> currentStalks % 4 == 0
      invariant LineOf(WorkingStalks, draws) == AddTo(Sum(values), LineOf(currentStalks, draws[stage..]))
    {
      assert draws[stage..] == [draws[stage]] + draws[stage + 1..];
      StageStep(currentStalks, draws[stage], draws[stage + 1..]);
      var division := PerformDivision(currentStalks, draws[stage]).value;
      var value := GetValueFromRemainder(division.0).value;
      AddToAdd(Sum(values), value, LineOf(division.1, draws[stage + 1..]));
      assert (values + [value])[..stage] == values;
      assert Sum(values + [value]) == Sum(values) + value;
      values := values + [value];
      currentStalks := division.1;
    }
    assert draws[3..] == [];
    r := Ok(Sum(values));
  }

  /** generate_hexagram: six lines, bottom first, each from its own three draws. */
  method GenerateHexagram(draws: seq<nat>) returns (lines: seq<int>)
    requires |draws| == 18
    ensures |lines| == 6 && AllLineValues(lines)
    ensures forall k :: 0 <= k < 6 ==> LineOf(WorkingStalks, draws[3 * k..3 * k + 3]) == Ok(lines[k])
  {
    lines := [];
    for k := 0 to 6
      invariant |lines| == k && AllLineValues(lines)
      invariant forall j :: 0 <= j < k ==> LineOf(WorkingStalks, draws[3 * j..3 * j + 3]) == Ok(lines[j])
    {
      var line := GenerateLine(draws[3 * k..3 * k + 3]);
      lines := lines + [line.value];
    }
  }

  /** get_trigram_value's result: bit i is set exactly when line i is yang; three lines are required. */
  function TrigramValue(lines: seq<int>): Result<int, string>
  {
    if |lines| != 3 then Err("Trigram must have 3 lines") else Ok(LsbValue(Bits(lines)))
  }

  /** get_trigram_value: the loop that ORs 1 << i into the value for every yang line i. */
  method GetTrigramValue(lines: seq<int>) returns (r: Result<int, string>)
    ensures r.Ok? <==> |lines| == 3
    ensures r.Ok? ==> 0 <= r.value < 8
    ensures r.Ok? ==> r.value == YangBit(lines[0]) + 2 * YangBit(lines[1]) + 4 * YangBit(lines[2])
    ensures r == TrigramValue(lines)
  {
    if |lines| != 3 {
      return Err("Trigram must have 3 lines");
    }
    var value := 0;
    for i := 0 to 3
      invariant 0 <= value < Pow2(i)
      invariant value == (if i > 0 then YangBit(lines[0]) else 0) + (if i > 1 then 2 * YangBit(lines[1]) else 0)
                         + (if i > 2 then 4 * YangBit(lines[2]) else 0)
    {
      if IsYang(lines[i]) {
        // value < 2^i, so OR-ing in bit i adds it
        value := value + Pow2(i);
      }
    }
    LsbValue3(Bits(lines));
    r := Ok(value);
  }

  /**
   * The trigram value read with the bottom line as the most significant
   * bit, the order in which TRIGRAM_VALUES names the trigrams.
   */
  function TrigramValueCorrected(lines: seq<int>): Result<int, string>
  {
    if |lines| != 3 then Err("Trigram must have 3 lines") else Ok(MsbValue(Bits(lines)))
  }

  /** KING_WEN_MAP.get(f"{upper}_{lower}"): the 64 entries of the dictionary. */
  function KingWen(upper: int, lower: int): Option<int>
  {
    match (upper, lower)
    case (7, 7) => Some(1)
    case (0, 0) => Some(2)
    case (2, 4) => Some(3)
    case (1, 2) => Some(4)
    case (2, 7) => Some(5)
    case (7, 2) => Some(6)
    case (0, 2) => Some(7)
    case (2, 0) => Some(8)
    case (3, 7) => Some(9)
    case (7, 6) => Some(10)
    case (0, 7) => Some(11)
    case (7, 0) => Some(12)
    case (7, 5) => Some(13)
    case (5, 7) => Some(14)
    case (0, 1) => Some(15)
    case (4, 0) => Some(16)
    case (6, 4) => Some(17)
    case (1, 3) => Some(18)
    case (0, 6) => Some(19)
    case (3, 0) => Some(20)
    case (5, 4) => Some(21)
    case (1, 5) => Some(22)
    case (1, 0) => Some(23)
    case (0, 4) => Some(24)
    case (7, 4) => Some(25)
    case (1, 7) => Some(26)
    case (1, 4) => Some(27)
    case (6, 3) => Some(28)
    case (2, 2) => Some(29)
    case (5, 5) => Some(30)
    case (6, 1) => Some(31)
    case (4, 3) => Some(32)
    case (7, 1) => Some(33)
    case (4, 7) => Some(34)
    case (5, 0) => Some(35)
    case (0, 5) => Some(36)
    case (3, 5) => Some(37)
    case (5, 3) => Some(38)
    case (2, 1) => Some(39)
    case (4, 2) => Some(40)
    case (1, 6) => Some(41)
    case (3, 4) => Some(42)
    case (6, 7) => Some(43)
    case (7, 3) => Some(44)
    case (6, 0) => Some(45)
    case (0, 3) => Some(46)
    case (6, 2) => Some(47)
    case (2, 6) => Some(48)
    case (6, 5) => Some(49)
    case (5, 6) => Some(50)
    case (4, 4) => Some(51)
    case (1, 1) => Some(52)
    case (3, 1) => Some(53)
    case (4, 6) => Some(54)
    case (4, 5) => Some(55)
    case (5, 1) => Some(56)
    case (3, 3) => Some(57)
    case (6, 6) => Some(58)
    case (3, 2) => Some(59)
    case (2, 3) => Some(60)
    case (3, 6) => Some(61)
    case (4, 1) => Some(62)
    case (2, 5) => Some(63)
    case (5, 2) => Some(64)
    case _ => None
  }

  /** The key of each King Wen number, read off the same 64 entries; used to prove the table one-to-one. */
  function KingWenKey(n: int): (int, int)
  {
    match n
    case 1 => (7, 7)
    case 2 => (0, 0)
    case 3 => (2, 4)
    case 4 => (1, 2)
    case 5 => (2, 7)
    case 6 => (7, 2)
    case 7 => (0, 2)
    case 8 => (2, 0)
    case 9 => (3, 7)
    case 10 => (7, 6)
    case 11 => (0, 7)
    case 12 => (7, 0)
    case 13 => (7, 5)
    case 14 => (5, 7)
    case 15 => (0, 1)
    case 16 => (4, 0)
    case 17 => (6, 4)
    case 18 => (1, 3)
    case 19 => (0, 6)
    case 20 => (3, 0)
    case 21 => (5, 4)
    case 22 => (1, 5)
    case 23 => (1, 0)
    case 24 => (0, 4)
    case 25 => (7, 4)
    case 26 => (1, 7)
    case 27 => (1, 4)
    case 28 => (6, 3)
    case 29 => (2, 2)
    case 30 => (5, 5)
    case 31 => (6, 1)
    case 32 => (4, 3)
    case 33 => (7, 1)
    case 34 => (4, 7)
    case 35 => (5, 0)
    case 36 => (0, 5)
    case 37 => (3, 5)
    case 38 => (5, 3)
    case 39 => (2, 1)
    case 40 => (4, 2)
    case 41 => (1, 6)
    case 42 => (3, 4)
    case 43 => (6, 7)
    case 44 => (7, 3)
    case 45 => (6, 0)
    case 46 => (0, 3)
    case 47 => (6, 2)
    case 48 => (2, 6)
    case 49 => (6, 5)
    case 50 => (5, 6)
    case 51 => (4, 4)
    case 52 => (1, 1)
    case 53 => (3, 1)
    case 54 => (4, 6)
    case 55 => (4, 5)
    case 56 => (5, 1)
    case 57 => (3, 3)
    case 58 => (6, 6)
    case 59 => (3, 2)
    case 60 => (2, 3)
    case 61 => (3, 6)
    case 62 => (4, 1)
    case 63 => (2, 5)
    case 64 => (5, 2)
    case _ => (-1, -1)
  }

  lemma KingWenRow0(lower: int)
    requires 0 <= lower < 8
    ensures KingWen(0, lower).Some? && 1 <= KingWen(0, lower).value <= 64
    ensures KingWenKey(KingWen(0, lower).value) == (0, lower)
  {
    if lower == 0 {
      assert KingWen(0, 0) == Some(2);
    } else if lower == 1 {
      assert KingWen(0, 1) == Some(15);
    } else if lower == 2 {
      assert KingWen(0, 2) == Some(7);
    } else if lower == 3 {
      assert KingWen(0, 3) == Some(46);
    } else if lower == 4 {
      assert KingWen(0, 4) == Some(24);
    } else if lower == 5 {
      assert KingWen(0, 5) == Some(36);
    } else if lower == 6 {
      assert KingWen(0, 6) == Some(19);
    } else if lower == 7 {
      assert KingWen(0, 7) == Some(11);
    }
  }

  lemma KingWenRow1(lower: int)
    requires 0 <= lower < 8
    ensures KingWen(1, lower).Some? && 1 <= KingWen(1, lower).value <= 64
    ensures KingWenKey(KingWen(1, lower).value) == (1, lower)
  {
    if lower == 0 {
      assert KingWen(1, 0) == Some(23);
    } else if lower == 1 {
      assert KingWen(1, 1) == Some(52);
    } else if lower == 2 {
      assert KingWen(1, 2) == Some(4);
    } else if lower == 3 {
      assert KingWen(1, 3) == Some(18);
    } else if lower == 4 {
      assert KingWen(1, 4) == Some(27);
    } else if lower == 5 {
      assert KingWen(1, 5) == Some(22);
    } else if lower == 6 {
      assert KingWen(1, 6) == Some(41);
    } else if lower == 7 {
      assert KingWen(1, 7) == Some(26);
    }
  }

  lemma KingWenRow2(lower: int)
    requires 0 <= lower < 8
    ensures KingWen(2, lower).Some? && 1 <= KingWen(2, lower).value <= 64
    ensures KingWenKey(KingWen(2, lower).value) == (2, lower)
  {
    if lower == 0 {
      assert KingWen(2, 0) == Some(8);
    } else if lower == 1 {
      assert KingWen(2, 1) == Some(39);
    } else if lower == 2 {
      assert KingWen(2, 2) == Some(29);
    } else if lower == 3 {
      assert KingWen(2, 3) == Some(60);
    } else if lower == 4 {
      assert KingWen(2, 4) == Some(3);
    } else if lower == 5 {
      assert KingWen(2, 5) == Some(63);
    } else if lower == 6 {
      assert KingWen(2, 6) == Some(48);
    } else if lower == 7 {
      assert KingWen(2, 7) == Some(5);
    }
  }

  lemma KingWenRow3(lower: int)
    requires 0 <= lower < 8
    ensures KingWen(3, lower).Some? && 1 <= KingWen(3, lower).value <= 64
    ensures KingWenKey(KingWen(3, lower).value) == (3, lower)
  {
    if lower == 0 {
      assert KingWen(3, 0) == Some(20);
    } else if lower == 1 {
      assert KingWen(3, 1) == Some(53);
    } else if lower == 2 {
      assert KingWen(3, 2) == Some(59);
    } else if lower == 3 {
      assert KingWen(3, 3) == Some(57);
    } else if lower == 4 {
      assert KingWen(3, 4) == Some(42);
    } else if lower == 5 {
      assert KingWen(3, 5) == Some(37);
    } else if lower == 6 {
      assert KingWen(3, 6) == Some(61);
    } else if lower == 7 {
      assert KingWen(3, 7) == Some(9);
    }
  }

  lemma KingWenRow4(lower: int)
    requires 0 <= lower < 8
    ensures KingWen(4, lower).Some? && 1 <= KingWen(4, lower).value <= 64
    ensures KingWenKey(KingWen(4, lower).value) == (4, lower)
  {
    if lower == 0 {
      assert KingWen(4, 0) == Some(16);
    } else if lower == 1 {
      assert KingWen(4, 1) == Some(62);
    } else if lower == 2 {
      assert KingWen(4, 2) == Some(40);
    } else if lower == 3 {
      assert KingWen(4, 3) == Some(32);
    } else if lower == 4 {
      assert KingWen(4, 4) == Some(51);
    } else if lower == 5 {
      assert KingWen(4, 5) == Some(55);
    } else if lower == 6 {
      assert KingWen(4, 6) == Some(54);
    } else if lower == 7 {
      assert KingWen(4, 7) == Some(34);
    }
  }

  lemma KingWenRow5(lower: int)
    requires 0 <= lower < 8
    ensures KingWen(5, lower).Some? && 1 <= KingWen(5, lower).value <= 64
    ensures KingWenKey(KingWen(5, lower).value) == (5, lower)
  {
    if lower == 0 {
      assert KingWen(5, 0) == Some(35);
    } else if lower == 1 {
      assert KingWen(5, 1) == Some(56);
    } else if lower == 2 {
      assert KingWen(5, 2) == Some(64);
    } else if lower == 3 {
      assert KingWen(5, 3) == Some(38);
    } else if lower == 4 {
      assert KingWen(5, 4) == Some(21);
    } else if lower == 5 {
      assert KingWen(5, 5) == Some(30);
    } else if lower == 6 {
      assert KingWen(5, 6) == Some(50);
    } else if lower == 7 {
      assert KingWen(5, 7) == Some(14);
    }
  }

  lemma KingWenRow6(lower: int)
    requires 0 <= lower < 8
    ensures KingWen(6, lower).Some? && 1 <= KingWen(6, lower).value <= 64
    ensures KingWenKey(KingWen(6, lower).value) == (6, lower)
  {
    if lower == 0 {
      assert KingWen(6, 0) == Some(45);
    } else if lower == 1 {
      assert KingWen(6, 1) == Some(31);
    } else if lower == 2 {
      assert KingWen(6, 2) == Some(47);
    } else if lower == 3 {
      assert KingWen(6, 3) == Some(28);
    } else if lower == 4 {
      assert KingWen(6, 4) == Some(17);
    } else if lower == 5 {
      assert KingWen(6, 5) == Some(49);
    } else if lower == 6 {
      assert KingWen(6, 6) == Some(58);
    } else if lower == 7 {
      assert KingWen(6, 7) == Some(43);
    }
  }

  lemma KingWenRow7(lower: int)
    requires 0 <= lower < 8
    ensures KingWen(7, lower).Some? && 1 <= KingWen(7, lower).value <= 64
    ensures KingWenKey(KingWen(7, lower).value) == (7, lower)
  {
    if lower == 0 {
      assert KingWen(7, 0) == Some(12);
    } else if lower == 1 {
      assert KingWen(7, 1) == Some(33);
    } else if lower == 2 {
      assert KingWen(7, 2) == Some(6);
    } else if lower == 3 {
      assert KingWen(7, 3) == Some(44);
    } else if lower == 4 {
      assert KingWen(7, 4) == Some(25);
    } else if lower == 5 {
      assert KingWen(7, 5) == Some(13);
    } else if lower == 6 {
      assert KingWen(7, 6) == Some(10);
    } else if lower == 7 {
      assert KingWen(7, 7) == Some(1);
    }
  }

  lemma KingWenNumbers0(n: int)
    requires 1 <= n <= 4
    ensures KingWen(KingWenKey(n).0, KingWenKey(n).1) == Some(n)
  {
    if n == 1 {
      assert KingWen(7, 7) == Some(1);
    } else if n == 2 {
      assert KingWen(0, 0) == Some(2);
    } else if n == 3 {
      assert KingWen(2, 4) == Some(3);
    } else if n == 4 {
      assert KingWen(1, 2) == Some(4);
    }
  }

  lemma KingWenNumbers1(n: int)
    requires 5 <= n <= 8
    ensures KingWen(KingWenKey(n).0, KingWenKey(n).1) == Some(n)
  {
    if n == 5 {
      assert KingWen(2, 7) == Some(5);
    } else if n == 6 {
      assert KingWen(7, 2) == Some(6);
    } else if n == 7 {
      assert KingWen(0, 2) == Some(7);
    } else if n == 8 {
      assert KingWen(2, 0) == Some(8);
    }
  }

  lemma KingWenNumbers2(n: int)
    requires 9 <= n <= 12
    ensures KingWen(KingWenKey(n).0, KingWenKey(n).1) == Some(n)
  {
    if n == 9 {
      assert KingWen(3, 7) == Some(9);
    } else if n == 10 {
      assert KingWen(7, 6) == Some(10);
    } else if n == 11 {
      assert KingWen(0, 7) == Some(11);
    } else if n == 12 {
      assert KingWen(7, 0) == Some(12);
    }
  }

  lemma KingWenNumbers3(n: int)
    requires 13 <= n <= 16
    ensures KingWen(KingWenKey(n).0, KingWenKey(n).1) == Some(n)
  {
    if n == 13 {
      assert KingWen(7, 5) == Some(13);
    } else if n == 14 {
      assert KingWen(5, 7) == Some(14);
    } else if n == 15 {
      assert KingWen(0, 1) == Some(15);
    } else if n == 16 {
      assert KingWen(4, 0) == Some(16);
    }
  }

  lemma KingWenNumbers4(n: int)
    requires 17 <= n <= 20
    ensures KingWen(KingWenKey(n).0, KingWenKey(n).1) == Some(n)
  {
    if n == 17 {
      assert KingWen(6, 4) == Some(17);
    } else if n == 18 {
      assert KingWen(1, 3) == Some(18);
    } else if n == 19 {
      assert KingWen(0, 6) == Some(19);
    } else if n == 20 {
      assert KingWen(3, 0) == Some(20);
    }
  }

  lemma KingWenNumbers5(n: int)
    requires 21 <= n <= 24
    ensures KingWen(KingWenKey(n).0, KingWenKey(n).1) == Some(n)
  {
    if n == 21 {
      assert KingWen(5, 4) == Some(21);
    } else if n == 22 {
      assert KingWen(1, 5) == Some(22);
    } else if n == 23 {
      assert KingWen(1, 0) == Some(23);
    } else if n == 24 {
      assert KingWen(0, 4) == Some(24);
    }
  }

  lemma KingWenNumbers6(n: int)
    requires 25 <= n <= 28
    ensures KingWen(KingWenKey(n).0, KingWenKey(n).1) == Some(n)
  {
    if n == 25 {
      assert KingWen(7, 4) == Some(25);
    } else if n == 26 {
      assert KingWen(1, 7) == Some(26);
    } else if n == 27 {
      assert KingWen(1, 4) == Some(27);
    } else if n == 28 {
      assert KingWen(6, 3) == Some(28);
    }
  }

  lemma KingWenNumbers7(n: int)
    requires 29 <= n <= 32
    ensures KingWen(KingWenKey(n).0, KingWenKey(n).1) == Some(n)
  {
    if n == 29 {
      assert KingWen(2, 2) == Some(29);
    } else if n == 30 {
      assert KingWen(5, 5) == Some(30);
    } else if n == 31 {
      assert KingWen(6, 1) == Some(31);
    } else if n == 32 {
      assert KingWen(4, 3) == Some(32);
    }
  }

  lemma KingWenNumbers8(n: int)
    requires 33 <= n <= 36
    ensures KingWen(KingWenKey(n).0, KingWenKey(n).1) == Some(n)
  {
    if n == 33 {
      assert KingWen(7, 1) == Some(33);
    } else if n == 34 {
      assert KingWen(4, 7) == Some(34);
    } else if n == 35 {
      assert KingWen(5, 0) == Some(35);
    } else if n == 36 {
      assert KingWen(0, 5) == Some(36);
    }
  }

  lemma KingWenNumbers9(n: int)
    requires 37 <= n <= 40
    ensures KingWen(KingWenKey(n).0, KingWenKey(n).1) == Some(n)
  {
    if n == 37 {
      assert KingWen(3, 5) == Some(37);
    } else if n == 38 {
      assert KingWen(5, 3) == Some(38);
    } else if n == 39 {
      assert KingWen(2, 1) == Some(39);
    } else if n == 40 {
      assert KingWen(4, 2) == Some(40);
    }
  }

  lemma KingWenNumbers10(n: int)
    requires 41 <= n <= 44
    ensures KingWen(KingWenKey(n).0, KingWenKey(n).1) == Some(n)
  {
    if n == 41 {
      assert KingWen(1, 6) == Some(41);
    } else if n == 42 {
      assert KingWen(3, 4) == Some(42);
    } else if n == 43 {
      assert KingWen(6, 7) == Some(43);
    } else if n == 44 {
      assert KingWen(7, 3) == Some(44);
    }
  }

  lemma KingWenNumbers11(n: int)
    requires 45 <= n <= 48
    ensures KingWen(KingWenKey(n).0, KingWenKey(n).1) == Some(n)
  {
    if n == 45 {
      assert KingWen(6, 0) == Some(45);
    } else if n == 46 {
      assert KingWen(0, 3) == Some(46);
    } else if n == 47 {
      assert KingWen(6, 2) == Some(47);
    } else if n == 48 {
      assert KingWen(2, 6) == Some(48);
    }
  }

  lemma KingWenNumbers12(n: int)
    requires 49 <= n <= 52
    ensures KingWen(KingWenKey(n).0, KingWenKey(n).1) == Some(n)
  {
    if n == 49 {
      assert KingWen(6, 5) == Some(49);
    } else if n == 50 {
      assert KingWen(5, 6) == Some(50);
    } else if n == 51 {
      assert KingWen(4, 4) == Some(51);
    } else if n == 52 {
      assert KingWen(1, 1) == Some(52);
    }
  }

  lemma KingWenNumbers13(n: int)
    requires 53 <= n <= 56
    ensures KingWen(KingWenKey(n).0, KingWenKey(n).1) == Some(n)
  {
    if n == 53 {
      assert KingWen(3, 1) == Some(53);
    } else if n == 54 {
      assert KingWen(4, 6) == Some(54);
    } else if n == 55 {
      assert KingWen(4, 5) == Some(55);
    } else if n == 56 {
      assert KingWen(5, 1) == Some(56);
    }
  }

  lemma KingWenNumbers14(n: int)
    requires 57 <= n <= 60
    ensures KingWen(KingWenKey(n).0, KingWenKey(n).1) == Some(n)
  {
    if n == 57 {
      assert KingWen(3, 3) == Some(57);
    } else if n == 58 {
      assert KingWen(6, 6) == Some(58);
    } else if n == 59 {
      assert KingWen(3, 2) == Some(59);
    } else if n == 60 {
      assert KingWen(2, 3) == Some(60);
    }
  }

  lemma KingWenNumbers15(n: int)
    requires 61 <= n <= 64
    ensures KingWen(KingWenKey(n).0, KingWenKey(n).1) == Some(n)
  {
    if n == 61 {
      assert KingWen(3, 6) == Some(61);
    } else if n == 62 {
      assert KingWen(4, 1) == Some(62);
    } else if n == 63 {
      assert KingWen(2, 5) == Some(63);
    } else if n == 64 {
      assert KingWen(5, 2) == Some(64);
    }
  }

  lemma KingWenEntry(upper: int, lower: int)
    requires 0 <= upper < 8 && 0 <= lower < 8
    ensures KingWen(upper, lower).Some? && 1 <= KingWen(upper, lower).value <= 64
    ensures KingWenKey(KingWen(upper, lower).value) == (upper, lower)
  {
    if upper == 0 { KingWenRow0(lower); }
    else if upper == 1 { KingWenRow1(lower); }
    else if upper == 2 { KingWenRow2(lower); }
    else if upper == 3 { KingWenRow3(lower); }
    else if upper == 4 { KingWenRow4(lower); }
    else if upper == 5 { KingWenRow5(lower); }
    else if upper == 6 { KingWenRow6(lower); }
    else { KingWenRow7(lower); }
  }

  /**
   * KING_WEN_MAP is a one-to-one correspondence between the 64 pairs of
   * trigram values and the numbers 1..64.
   */
  lemma KingWenBijective()
    ensures forall u, l :: 0 <= u < 8 && 0 <= l < 8 ==> KingWen(u, l).Some? && 1 <= KingWen(u, l).value <= 64
    ensures forall u1, l1, u2, l2 ::
      0 <= u1 < 8 && 0 <= l1 < 8 && 0 <= u2 < 8 && 0 <= l2 < 8 && KingWen(u1, l1) == KingWen(u2, l2) ==> u1 == u2 && l1 == l2
    ensures forall n :: 1 <= n <= 64 ==> 0 <= KingWenKey(n).0 < 8 && 0 <= KingWenKey(n).1 < 8 && KingWen(KingWenKey(n).0, KingWenKey(n).1) == Some(n)
  {
    forall u, l | 0 <= u < 8 && 0 <= l < 8
      ensures KingWen(u, l).Some? && 1 <= KingWen(u, l).value <= 64 && KingWenKey(KingWen(u, l).value) == (u, l)
    {
      KingWenEntry(u, l);
    }
    forall n | 1 <= n <= 64
      ensures 0 <= KingWenKey(n).0 < 8 && 0 <= KingWenKey(n).1 < 8 && KingWen(KingWenKey(n).0, KingWenKey(n).1) == Some(n)
    {
      if n <= 4 { KingWenNumbers0(n); }
      else if n <= 8 { KingWenNumbers1(n); }
      else if n <= 12 { KingWenNumbers2(n); }
      else if n <= 16 { KingWenNumbers3(n); }
      else if n <= 20 { KingWenNumbers4(n); }
      else if n <= 24 { KingWenNumbers5(n); }
      else if n <= 28 { KingWenNumbers6(n); }
      else if n <= 32 { KingWenNumbers7(n); }
      else if n <= 36 { KingWenNumbers8(n); }
      else if n <= 40 { KingWenNumbers9(n); }
      else if n <= 44 { KingWenNumbers10(n); }
      else if n <= 48 { KingWenNumbers11(n); }
      else if n <= 52 { KingWenNumbers12(n); }
      else if n <= 56 { KingWenNumbers13(n); }
      else if n <= 60 { KingWenNumbers14(n); }
      else { KingWenNumbers15(n); }
    }
  }

  /**
   * Four numbers of KING_WEN_MAP sit on each other's keys: "2_3" (Water over
   * Wind) holds 60 and "2_6" (Water over Lake) holds 48, where The Well is 48
   * and Limitation 60; "5_3" (Fire over Wind) holds 38 and "5_6" (Fire over
   * Lake) holds 50, where The Cauldron is 50 and Opposition 38.  Swapping the
   * numbers back is an involution on 1..64.
   */
  function SwapMisplaced(n: int): (m: int)
    ensures 1 <= n <= 64 <==> 1 <= m <= 64
    ensures m != n <==> n in {38, 48, 50, 60}
  {
    if n == 38 then 50 else if n == 50 then 38 else if n == 48 then 60 else if n == 60 then 48 else n
  }

  lemma SwapMisplacedInvolution(n: int)
    ensures SwapMisplaced(SwapMisplaced(n)) == n
  {
  }

  /** KING_WEN_MAP with The Well, Limitation, The Cauldron and Opposition back on their keys. */
  function KingWenCorrected(upper: int, lower: int): Option<int>
  {
    match KingWen(upper, lower)
    case Some(n) => Some(SwapMisplaced(n))
    case None => None
  }

  /** The corrected table is still a one-to-one correspondence between the 64 pairs and 1..64. */
  lemma KingWenCorrectedBijective()
    ensures forall u, l :: 0 <= u < 8 && 0 <= l < 8 ==> KingWenCorrected(u, l).Some? && 1 <= KingWenCorrected(u, l).value <= 64
    ensures forall u1, l1, u2, l2 ::
      0 <= u1 < 8 && 0 <= l1 < 8 && 0 <= u2 < 8 && 0 <= l2 < 8 && KingWenCorrected(u1, l1) == KingWenCorrected(u2, l2) ==> u1 == u2 && l1 == l2
    ensures forall n :: 1 <= n <= 64 ==>
      var key := KingWenKey(SwapMisplaced(n));
      0 <= key.0 < 8 && 0 <= key.1 < 8 && KingWenCorrected(key.0, key.1) == Some(n)
  {
    KingWenBijective();
    forall u1, l1, u2, l2 | 0 <= u1 < 8 && 0 <= l1 < 8 && 0 <= u2 < 8 && 0 <= l2 < 8 && KingWenCorrected(u1, l1) == KingWenCorrected(u2, l2)
      ensures u1 == u2 && l1 == l2
    {
      SwapMisplacedInvolution(KingWen(u1, l1).value);
      SwapMisplacedInvolution(KingWen(u2, l2).value);
    }
    forall n | 1 <= n <= 64
      ensures var key := KingWenKey(SwapMisplaced(n));
        0 <= key.0 < 8 && 0 <= key.1 < 8 && KingWenCorrected(key.0, key.1) == Some(n)
    {
      SwapMisplacedInvolution(n);
    }
  }

  /** Exactly the four keys named above change, and the corrected ones carry the traditional numbers. */
  lemma KingWenSwappedEntries(upper: int, lower: int)
    requires 0 <= upper < 8 && 0 <= lower < 8
    ensures KingWenCorrected(upper, lower) != KingWen(upper, lower) <==> (upper, lower) in {(2, 3), (2, 6), (5, 3), (5, 6)}
    ensures KingWen(2, 3) == Some(60) && KingWenCorrected(2, 3) == Some(48)
    ensures KingWen(2, 6) == Some(48) && KingWenCorrected(2, 6) == Some(60)
    ensures KingWen(5, 3) == Some(38) && KingWenCorrected(5, 3) == Some(50)
    ensures KingWen(5, 6) == Some(50) && KingWenCorrected(5, 6) == Some(38)
  {
    KingWenBijective();
    KingWenEntry(upper, lower);
    var n := KingWen(upper, lower).value;
    if n == 60 { assert KingWen(upper, lower) == KingWen(2, 3); }
    if n == 48 { assert KingWen(upper, lower) == KingWen(2, 6); }
    if n == 38 { assert KingWen(upper, lower) == KingWen(5, 3); }
    if n == 50 { assert KingWen(upper, lower) == KingWen(5, 6); }
  }

  /** get_hexagram_number as written, with get_trigram_value's bit order. */
  function HexagramNumberAsWritten(lines: seq<int>): Result<int, string>
  {
    if |lines| != 6 then Err("Hexagram must have 6 lines")
    else
      var lower := TrigramValue(lines[..3]).value;
      var upper := TrigramValue(lines[3..]).value;
      match KingWen(upper, lower)
      case Some(n) => Ok(n)
      case None => Err("Invalid trigram combination")
  }

  /** As written, six lines always have a number in 1..64; any other count raises. */
  lemma HexagramNumberAsWrittenDefined(lines: seq<int>)
    ensures HexagramNumberAsWritten(lines).Ok? <==> |lines| == 6
    ensures HexagramNumberAsWritten(lines).Ok? ==> 1 <= HexagramNumberAsWritten(lines).value <= 64
  {
    if |lines| == 6 {
      LsbValueRange(Bits(lines[..3]));
      LsbValueRange(Bits(lines[3..]));
      KingWenBijective();
    }
  }

  /**
   * As written, different yin/yang patterns still get different numbers:
   * get_trigram_value is one-to-one on three lines and KING_WEN_MAP is
   * one-to-one on its 64 keys.
   */
  lemma HexagramNumberAsWrittenInjective(a: seq<int>, b: seq<int>)
    requires |a| == 6 && |b| == 6
    requires HexagramNumberAsWritten(a) == HexagramNumberAsWritten(b)
    ensures Bits(a) == Bits(b)
  {
    LsbValueRange(Bits(a[..3]));
    LsbValueRange(Bits(a[3..]));
    LsbValueRange(Bits(b[..3]));
    LsbValueRange(Bits(b[3..]));
    KingWenBijective();
    LsbValueInjective(Bits(a[..3]), Bits(b[..3]));
    LsbValueInjective(Bits(a[3..]), Bits(b[3..]));
    assert Bits(a) == Bits(a[..3]) + Bits(a[3..]);
    assert Bits(b) == Bits(b[..3]) + Bits(b[3..]);
  }

  /**
   * get_hexagram_number with the bottom line of each trigram as its most
   * significant bit and the four misplaced numbers put back: six lines give
   * the King Wen number of the lower trigram lines[..3] under the upper
   * trigram lines[3..].
   */
  function GetHexagramNumber(lines: seq<int>): Result<int, string>
  {
    if |lines| != 6 then Err("Hexagram must have 6 lines")
    else
      var lower := TrigramValueCorrected(lines[..3]).value;
      var upper := TrigramValueCorrected(lines[3..]).value;
      match KingWenCorrected(upper, lower)
      case Some(n) => Ok(n)
      case None => Err("Invalid trigram combination")
  }

  /** Six lines always have a number in 1..64; any other count raises. */
  lemma HexagramNumberDefined(lines: seq<int>)
    ensures GetHexagramNumber(lines).Ok? <==> |lines| == 6
    ensures GetHexagramNumber(lines).Ok? ==> 1 <= GetHexagramNumber(lines).value <= 64
  {
    if |lines| == 6 {
      MsbValueRange(Bits(lines[..3]));
      MsbValueRange(Bits(lines[3..]));
      KingWenCorrectedBijective();
    }
  }

  /** Different yin/yang patterns get different numbers. */
  lemma HexagramNumberInjective(a: seq<int>, b: seq<int>)
    requires |a| == 6 && |b| == 6
    requires GetHexagramNumber(a) == GetHexagramNumber(b)
    ensures Bits(a) == Bits(b)
  {
    MsbValueRange(Bits(a[..3]));
    MsbValueRange(Bits(a[3..]));
    MsbValueRange(Bits(b[..3]));
    MsbValueRange(Bits(b[3..]));
    KingWenCorrectedBijective();
    MsbValueInjective(Bits(a[..3]), Bits(b[..3]));
    MsbValueInjective(Bits(a[3..]), Bits(b[3..]));
    assert Bits(a) == Bits(a[..3]) + Bits(a[3..]);
    assert Bits(b) == Bits(b[..3]) + Bits(b[3..]);
  }

  /**
   * Six yang lines are hexagram 1 and six yin lines hexagram 2; Heaven below
   * Earth is 11 (Peace) and Earth below Heaven is 12 (Standstill).
   */
  lemma HexagramNumberExamples()
    ensures GetHexagramNumber([7, 7, 7, 7, 7, 7]) == Ok(1)
    ensures GetHexagramNumber([8, 8, 8, 8, 8, 8]) == Ok(2)
    ensures GetHexagramNumber([7, 7, 7, 8, 8, 8]) == Ok(11)
    ensures GetHexagramNumber([8, 8, 8, 7, 7, 7]) == Ok(12)
  {
    assert [7, 7, 7, 7, 7, 7][..3] == [7, 7, 7] && [7, 7, 7, 7, 7, 7][3..] == [7, 7, 7];
    assert [8, 8, 8, 8, 8, 8][..3] == [8, 8, 8] && [8, 8, 8, 8, 8, 8][3..] == [8, 8, 8];
    assert [7, 7, 7, 8, 8, 8][..3] == [7, 7, 7] && [7, 7, 7, 8, 8, 8][3..] == [8, 8, 8];
    assert [8, 8, 8, 7, 7, 7][..3] == [8, 8, 8] && [8, 8, 8, 7, 7, 7][3..] == [7, 7, 7];
    MsbValue3(Bits([7, 7, 7]));
    MsbValue3(Bits([8, 8, 8]));
  }

  /** The lines of a yin/yang pattern: 7 for a 1, 8 for a 0. */
  function LinesOf(bits: seq<int>): (lines: seq<int>)
    ensures |lines| == |bits|
  {
    seq(|bits|, i requires 0 <= i < |bits| => if bits[i] == 1 then 7 else 8)
  }

  /**
   * The traditional pictures of the trigrams, bottom line first, 1 for a yang
   * line: Thunder has its yang line at the bottom, Mountain at the top.
   */
  const Pictures: map<string, seq<int>> :=
    map["Earth" := [0, 0, 0], "Mountain" := [0, 0, 1], "Water" := [0, 1, 0], "Wind" := [0, 1, 1],
        "Thunder" := [1, 0, 0], "Fire" := [1, 0, 1], "Lake" := [1, 1, 0], "Heaven" := [1, 1, 1]]

  /** Read bottom line first as the most significant bit, each trigram's picture gets its TRIGRAM_VALUES value. */
  lemma CorrectedValuesMatchNames()
    ensures forall name :: name in Pictures ==> name in TrigramValues && TrigramValueCorrected(LinesOf(Pictures[name])) == Ok(TrigramValues[name])
  {
    forall name | name in Pictures
      ensures name in TrigramValues && TrigramValueCorrected(LinesOf(Pictures[name])) == Ok(TrigramValues[name])
    {
      MsbValue3(Bits(LinesOf(Pictures[name])));
    }
  }

  /**
   * get_trigram_value as written gives Thunder's picture the value 1 that
   * TRIGRAM_VALUES gives Mountain, so one yang line under five yin lines
   * (Earth over Thunder, hexagram 24) is looked up as "0_1" and numbered 15.
   */
  lemma TrigramBitOrderAsWritten()
    ensures TrigramValue(LinesOf(Pictures["Thunder"])) == Ok(TrigramValues["Mountain"])
    ensures HexagramNumberAsWritten([7, 8, 8, 8, 8, 8]) == Ok(15)
    ensures GetHexagramNumber([7, 8, 8, 8, 8, 8]) == Ok(24)
  {
    LsbValue3(Bits(LinesOf([1, 0, 0])));
    assert [7, 8, 8, 8, 8, 8][..3] == [7, 8, 8] && [7, 8, 8, 8, 8, 8][3..] == [8, 8, 8];
    LsbValue3(Bits([7, 8, 8]));
    LsbValue3(Bits([8, 8, 8]));
    MsbValue3(Bits([7, 8, 8]));
    MsbValue3(Bits([8, 8, 8]));
  }

  /** Three draws from the 49 working stalks always give a line: generate_line never raises. */
  lemma {:induction false} LineOfThreeDraws(d: seq<nat>)
    requires |d| == 3
    ensures LineOf(WorkingStalks, d).Ok? && IsLineValue(LineOf(WorkingStalks, d).value)
  {
    assert d == [d[0]] + d[1..] && d[1..] == [d[1]] + d[2..] && d[2..] == [d[2]] + d[3..] && d[3..] == [];
    StageStep(WorkingStalks, d[0], d[1..]);
    var first := PerformDivision(WorkingStalks, d[0]).value.1;
    StageStep(first, d[1], d[2..]);
    var second := PerformDivision(first, d[1]).value.1;
    StageStep(second, d[2], d[3..]);
  }

  /** The line generate_line gives for three draws. */
  function DrawnLine(d: seq<nat>): (v: int)
    requires |d| == 3
    ensures LineOf(WorkingStalks, d) == Ok(v) && IsLineValue(v)
  {
    LineOfThreeDraws(d);
    LineOf(WorkingStalks, d).value
  }

  /** The six lines generate_hexagram gives for eighteen draws, bottom first. */
  function DrawnLines(draws: seq<nat>): seq<int>
    requires |draws| == 18
  {
    seq(6, k requires 0 <= k < 6 => DrawnLine(draws[3 * k..3 * k + 3]))
  }

  /** The cast_result dict: lines, changing indices, primary number, and the transformed number and lines when lines change. */
  datatype CastResult = CastResult(
    lines: seq<int>,
    changingLineIndices: seq<int>,
    primaryHexagramNumber: int,
    transformed: Option<(int, seq<int>)>)

  /** The result dict of a successful get_reading. */
  datatype Reading<E> = Reading(castResult: CastResult, primaryHexagram: E, transformedHexagram: Option<E>)

  const LoadFailed: string := "Failed to load hexagram data"

  /** The text the except clause gives the NameError raised by the undefined name changing_lines. */
  const ChangingLinesUndefined: string := "Error generating reading: name 'changing_lines' is not defined"

  /**
   * get_reading as written over the hexagram table `data`. An empty table
   * gives the load error. Otherwise generate_hexagram and
   * get_hexagram_number cannot raise, so the first test of the undefined
   * name changing_lines raises NameError, which the except clause turns
   * into an error dict: no call ever returns a reading.
   */
  method GetReadingAsWritten<E>(data: map<int, E>, draws: seq<nat>) returns (r: Result<Reading<E>, string>)
    requires |draws| == 18
    ensures data == map[] ==> r == Err(LoadFailed)
    ensures data != map[] ==> r == Err(ChangingLinesUndefined)
  {
    if data == map[] {
      return Err(LoadFailed);
    }
    var lines := GenerateHexagram(draws);
    var changingIndices := ChangingIndices(lines);
    HexagramNumberAsWrittenDefined(lines);
    match HexagramNumberAsWritten(lines)
    case Err(e) =>
      r := Err("Error generating reading: " + e);
    case Ok(primaryNumber) =>
      r := Err(ChangingLinesUndefined);
  }

  /**
   * get_reading with changing_lines read as the changing_indices computed
   * just before it. A number missing from the table is the KeyError whose
   * text, the missing number, follows "Error generating reading: ".
   */
  method GetReading<E>(data: map<int, E>, draws: seq<nat>) returns (r: Result<Reading<E>, string>)
    requires |draws| == 18
    ensures data == map[] ==> r == Err(LoadFailed)
    ensures r.Ok? ==>
      var cast := r.value.castResult;
      cast.lines == DrawnLines(draws)
      && cast.changingLineIndices == ChangingIndices(cast.lines)
      && HexagramNumberAsWritten(cast.lines) == Ok(cast.primaryHexagramNumber)
      && cast.primaryHexagramNumber in data
      && r.value.primaryHexagram == data[cast.primaryHexagramNumber]
      && (cast.transformed.Some? <==> cast.changingLineIndices != [])
      && (r.value.transformedHexagram.Some? <==> cast.changingLineIndices != [])
      && (cast.transformed.Some? ==>
            cast.transformed.value.1 == SettleAll(cast.lines)
            && HexagramNumberAsWritten(SettleAll(cast.lines)) == Ok(cast.transformed.value.0)
            && cast.transformed.value.0 in data
            && r.value.transformedHexagram == Some(data[cast.transformed.value.0]))
    ensures data != map[] ==>
      var lines := DrawnLines(draws);
      var primary := HexagramNumberAsWritten(lines);
      var changed := HexagramNumberAsWritten(SettleAll(lines));
      primary.Ok? && changed.Ok? && 1 <= primary.value <= 64 && 1 <= changed.value <= 64
      && (r.Ok? <==> primary.value in data && (ChangingIndices(lines) != [] ==> changed.value in data))
      && (r.Err? ==> r.error == "Error generating reading: "
                               + Text.NatToString(if primary.value !in data then primary.value else changed.value))
  {
    if data == map[] {
      return Err(LoadFailed);
    }
    var lines := GenerateHexagram(draws);
    forall k | 0 <= k < 6
      ensures lines[k] == DrawnLines(draws)[k]
    {
      assert LineOf(WorkingStalks, draws[3 * k..3 * k + 3]) == Ok(DrawnLine(draws[3 * k..3 * k + 3]));
    }
    assert lines == DrawnLines(draws);
    var changingIndices := ChangingIndices(lines);
    HexagramNumberAsWrittenDefined(lines);
    HexagramNumberAsWrittenDefined(SettleAll(lines));
    var primaryNumber := HexagramNumberAsWritten(lines).value;
    var transformed: Option<(int, seq<int>)> := None;
    if changingIndices != [] {
      var transformedLines := SettleAll(lines);
      transformed := Some((HexagramNumberAsWritten(transformedLines).value, transformedLines));
    }
    var castResult := CastResult(lines, changingIndices, primaryNumber, transformed);
    if primaryNumber !in data {
      return Err("Error generating reading: " + Text.NatToString(primaryNumber));
    }
    var transformedHexagram: Option<E> := None;
    if changingIndices != [] {
      if transformed.value.0 !in data {
        return Err("Error generating reading: " + Text.NatToString(transformed.value.0));
      }
      transformedHexagram := Some(data[transformed.value.0]);
    }
    r := Ok(Reading(castResult, data[primaryNumber], transformedHexagram));
  }

  /** One case of the slice-logic self-test: six lines and the number it expects. */
  datatype SliceCase = SliceCase(lines: seq<int>, expected: int)

  /** The four cases of the self-test as written: it expects 12 for Heaven below Earth and 11 for Earth below Heaven. */
  const SliceTestAsWritten: seq<SliceCase> :=
    [SliceCase([7, 7, 7, 7, 7, 7], 1), SliceCase([8, 8, 8, 8, 8, 8], 2),
     SliceCase([7, 7, 7, 8, 8, 8], 12), SliceCase([8, 8, 8, 7, 7, 7], 11)]

  /** The same cases with the traditional numbers: Heaven below Earth is 11 (Peace), Earth below Heaven 12 (Standstill). */
  const SliceTestCorrected: seq<SliceCase> :=
    [SliceCase([7, 7, 7, 7, 7, 7], 1), SliceCase([8, 8, 8, 8, 8, 8], 2),
     SliceCase([7, 7, 7, 8, 8, 8], 11), SliceCase([8, 8, 8, 7, 7, 7], 12)]

  /** A case passes when get_hexagram_number returns the expected number. */
  predicate CasePasses(c: SliceCase)
  {
    HexagramNumberAsWritten(c.lines) == Ok(c.expected)
  }

  /**
   * The self-test's run of asserts: the index of the first case whose assert
   * fails (the remaining cases are skipped), or None when all pass.
   */
  function FirstFailure(cases: seq<SliceCase>): (r: Option<nat>)
    ensures r.None? <==> forall j :: 0 <= j < |cases| ==> CasePasses(cases[j])
    ensures r.Some? ==> r.value < |cases| && !CasePasses(cases[r.value])
                        && forall j :: 0 <= j < r.value ==> CasePasses(cases[j])
  {
    if cases == [] then None
    else if !CasePasses(cases[0]) then Some(0)
    else match FirstFailure(cases[1..])
      case None => None
      case Some(k) => Some(k + 1)
  }

  /**
   * The message the self-test prints at the end. A failing bare assert
   * raises an AssertionError whose text is empty, so the failure message
   * ends in ": ".
   */
  function SliceTestOutcome(cases: seq<SliceCase>): (message: string)
    ensures message == "Slice logic test passed." <==> forall j :: 0 <= j < |cases| ==> CasePasses(cases[j])
  {
    if FirstFailure(cases).None? then "Slice logic test passed." else "Slice logic test failed: "
  }

  /**
   * The self-test as written fails at its third assert: [7, 7, 7, 8, 8, 8]
   * is looked up as "0_7", which KING_WEN_MAP numbers 11, not 12.
   */
  lemma SliceTestAsWrittenFails()
    ensures HexagramNumberAsWritten([7, 7, 7, 8, 8, 8]) == Ok(11)
    ensures FirstFailure(SliceTestAsWritten) == Some(2)
    ensures SliceTestOutcome(SliceTestAsWritten) == "Slice logic test failed: "
  {
    SliceCasesAsWritten();
    assert SliceTestAsWritten[1..][1..][1..] == [SliceTestAsWritten[3]];
  }

  /** With the traditional expectations every case passes, against the table as written and against the corrected numbering. */
  lemma SliceTestCorrectedPasses()
    ensures FirstFailure(SliceTestCorrected) == None
    ensures SliceTestOutcome(SliceTestCorrected) == "Slice logic test passed."
    ensures forall j :: 0 <= j < |SliceTestCorrected| ==> GetHexagramNumber(SliceTestCorrected[j].lines) == Ok(SliceTestCorrected[j].expected)
  {
    CorrectedCasesPass();
    CorrectedCasesKingWen();
  }

  /** Each case with the traditional expectation passes against the table as written. */
  lemma CorrectedCasesPass()
    ensures forall j :: 0 <= j < |SliceTestCorrected| ==> CasePasses(SliceTestCorrected[j])
  {
    SliceCasesAsWritten();
    var cases := SliceTestCorrected;
    assert cases[0].lines == [7, 7, 7, 7, 7, 7] && cases[1].lines == [8, 8, 8, 8, 8, 8];
    assert cases[2].lines == [7, 7, 7, 8, 8, 8] && cases[3].lines == [8, 8, 8, 7, 7, 7];
  }

  /** The corrected numbering gives every case its traditional number too. */
  lemma CorrectedCasesKingWen()
    ensures forall j :: 0 <= j < |SliceTestCorrected| ==> GetHexagramNumber(SliceTestCorrected[j].lines) == Ok(SliceTestCorrected[j].expected)
  {
    HexagramNumberExamples();
    var cases := SliceTestCorrected;
    assert cases[0].lines == [7, 7, 7, 7, 7, 7] && cases[1].lines == [8, 8, 8, 8, 8, 8];
    assert cases[2].lines == [7, 7, 7, 8, 8, 8] && cases[3].lines == [8, 8, 8, 7, 7, 7];
  }

  /** The numbers get_hexagram_number gives the four cases. */
  lemma SliceCasesAsWritten()
    ensures HexagramNumberAsWritten([7, 7, 7, 7, 7, 7]) == Ok(1)
    ensures HexagramNumberAsWritten([8, 8, 8, 8, 8, 8]) == Ok(2)
    ensures HexagramNumberAsWritten([7, 7, 7, 8, 8, 8]) == Ok(11)
    ensures HexagramNumberAsWritten([8, 8, 8, 7, 7, 7]) == Ok(12)
  {
    assert [7, 7, 7, 7, 7, 7][..3] == [7, 7, 7] && [7, 7, 7, 7, 7, 7][3..] == [7, 7, 7];
    assert [8, 8, 8, 8, 8, 8][..3] == [8, 8, 8] && [8, 8, 8, 8, 8, 8][3..] == [8, 8, 8];
    assert [7, 7, 7, 8, 8, 8][..3] == [7, 7, 7] && [7, 7, 7, 8, 8, 8][3..] == [8, 8, 8];
    assert [8, 8, 8, 7, 7, 7][..3] == [8, 8, 8] && [8, 8, 8, 7, 7, 7][3..] == [7, 7, 7];
    LsbValue3(Bits([7, 7, 7]));
    LsbValue3(Bits([8, 8, 8]));
  }
}
