/**
 * The YarrowStalks class of divination/yarrow.py: a seeded random number
 * generator and a threshold cascade that turns each of its draws into a
 * line with the yarrow-stalk odds.
 */
module DivinationYarrow {
  import opened Draws
  import opened LineValues

  /** generate_single_line_value's cascade on one draw of random(). */
  function LineFromDraw(probability: Unit): (v: int)
    ensures IsLineValue(v)
  {
    if probability < 0.0625 then 6
    else if probability < 0.375 then 7
    else if probability < 0.8125 then 8
    else 9
  }

  /** The interval of draws, [low, high), that gives each line value, in sixteenths. */
  function Band(v: int): (band: (real, real))
    requires IsLineValue(v)
  {
    if v == 6 then (0.0, 1.0 / 16.0)
    else if v == 7 then (1.0 / 16.0, 6.0 / 16.0)
    else if v == 8 then (6.0 / 16.0, 13.0 / 16.0)
    else (13.0 / 16.0, 1.0)
  }

  /** A draw gives v exactly when it falls in v's band. */
  lemma LineFromDrawBand(probability: Unit, v: int)
    requires IsLineValue(v)
    ensures LineFromDraw(probability) == v <==> Band(v).0 <= probability < Band(v).1
  {
  }

  /**
   * The bands tile [0, 1) in the order 6, 7, 8, 9 and are 1/16, 5/16, 7/16
   * and 3/16 wide: the odds the class documents.
   */
  lemma BandWidths()
    ensures Band(6).0 == 0.0 && Band(6).1 == Band(7).0 && Band(7).1 == Band(8).0 && Band(8).1 == Band(9).0 && Band(9).1 == 1.0
    ensures Band(6).1 - Band(6).0 == 1.0 / 16.0
    ensures Band(7).1 - Band(7).0 == 5.0 / 16.0
    ensures Band(8).1 - Band(8).0 == 7.0 / 16.0
    ensures Band(9).1 - Band(9).0 == 3.0 / 16.0
  {
  }

  /** A larger draw never gives a smaller line value. */
  lemma LineFromDrawMonotone(p: Unit, q: Unit)
    requires p <= q
    ensures LineFromDraw(p) <= LineFromDraw(q)
  {
  }

  /** The six lines that six consecutive draws, from the given one on, give. */
  function LinesFrom(stream: nat -> Unit, start: nat): (lines: seq<int>)
    ensures |lines| == 6 && AllLineValues(lines)
  {
    var lines := seq(6, i requires 0 <= i < 6 => LineFromDraw(stream(start + i)));
    assert forall i :: 0 <= i < 6 ==> lines[i] == LineFromDraw(stream(start + i));
    lines
  }

  class YarrowStalks {
    /** The values self.rng.random() returns, in order, for the seed given at construction. */
    const stream: nat -> Unit
    /** How many values the generator has returned so far. */
    var drawn: nat

    /** __init__: a generator seeded so that it returns `stream`, nothing drawn yet. */
    constructor (stream: nat -> Unit)
      ensures this.stream == stream && drawn == 0
    {
      this.stream := stream;
      drawn := 0;
    }

    /** generate_single_line_value: one draw, advanced past, turned into a line. */
    method GenerateSingleLineValue() returns (v: int)
      modifies this
      ensures drawn == old(drawn) + 1
      ensures v == LineFromDraw(stream(old(drawn)))
    {
      var probability := stream(drawn);
      drawn := drawn + 1;
      if probability < 0.0625 {
        v := 6;
      } else if probability < 0.375 {
        v := 7;
      } else if probability < 0.8125 {
        v := 8;
      } else {
        v := 9;
      }
    }

    /** generate_hexagram: six lines from the next six draws, bottom first. */
    method GenerateHexagram() returns (lines: seq<int>)
      modifies this
      ensures drawn == old(drawn) + 6
      ensures lines == LinesFrom(stream, old(drawn))
    {
      lines := [];
      for i := 0 to 6
        invariant drawn == old(drawn) + i
        invariant lines == LinesFrom(stream, old(drawn))[..i]
      {
        var v := GenerateSingleLineValue();
        lines := lines + [v];
      }
    }
  }

  /** Two generators built with the same seed cast the same first hexagram. */
  method SameSeedSameHexagram(stream: nat -> Unit) returns (first: seq<int>, second: seq<int>)
    ensures first == second
    ensures |first| == 6 && AllLineValues(first)
  {
    var a := new YarrowStalks(stream);
    var b := new YarrowStalks(stream);
    first := a.GenerateHexagram();
    second := b.GenerateHexagram();
  }
}
