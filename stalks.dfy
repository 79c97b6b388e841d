/** Counting a pile of yarrow stalks off by fours. */
module Stalks {
  /**
   * Python's `n % 4 or 4`: how many stalks are left in the hand when a pile
   * of n is counted off by fours (a full last group counts as four).
   */
  function Rem4(n: int): (r: int)
    ensures 1 <= r <= 4
    ensures (n - r) % 4 == 0
  {
    if n % 4 == 0 then 4 else n % 4
  }

  /** The two piles' remainders add up to the piles' total modulo 4, and lie between 2 and 8. */
  lemma RemaindersOfSplit(a: int, b: int)
    ensures 2 <= Rem4(a) + Rem4(b) <= 8
    ensures (a + b - Rem4(a) - Rem4(b)) % 4 == 0
  {
    var ra, rb := Rem4(a), Rem4(b);
    assert (a - ra) % 4 == 0 && (b - rb) % 4 == 0;
    assert a - ra == 4 * ((a - ra) / 4);
    assert b - rb == 4 * ((b - rb) / 4);
    assert a + b - ra - rb == 4 * ((a - ra) / 4 + (b - rb) / 4);
  }
}
