/**
 * The casting helpers of the iching/iching.py script: six picks from
 * 6..9, then the changing lines and a transformed copy.
 */
module IchingScript {
  import opened Draws
  import opened LineValues

  /** generate_hexagram: one pick from [6, 7, 8, 9] per line, six lines. */
  function GenerateHexagram(picks: seq<LineDraw>): (hexagram: seq<int>)
    requires |picks| == 6
    ensures |hexagram| == 6 && AllLineValues(hexagram)
    ensures forall k :: 0 <= k < 6 ==> hexagram[k] == picks[k]
  {
    seq(6, k requires 0 <= k < 6 => picks[k] as int)
  }

  /**
   * get_changing_lines: the 0-based positions of the 6s and 9s, and a copy
   * of the lines in which those positions become 7 and 8.
   */
  method GetChangingLines(hexagram: seq<int>) returns (changingLines: seq<int>, transformed: seq<int>)
    ensures changingLines == ChangingIndices(hexagram)
    ensures transformed == SettleAll(hexagram)
  {
    changingLines := ChangingIndices(hexagram);
    ChangingIndicesExact(hexagram);
    transformed := hexagram;
    for k := 0 to |changingLines|
      invariant |transformed| == |hexagram|
      invariant forall i :: 0 <= i < |hexagram| ==>
        transformed[i] == if i in changingLines[..k] then Settle(hexagram[i]) else hexagram[i]
    {
      var i := changingLines[k];
      assert i !in changingLines[..k];
      assert forall p :: p in changingLines[..k + 1] <==> p in changingLines[..k] || p == i;
      if transformed[i] == 6 {
        transformed := transformed[i := 7];
      } else if transformed[i] == 9 {
        transformed := transformed[i := 8];
      }
    }
    assert changingLines[..|changingLines|] == changingLines;
  }
}
