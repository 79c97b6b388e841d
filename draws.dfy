/**
 * Randomness is injected: every random draw of the source is a parameter
 * of the model.  A draw of random.randint(lo, hi) is a natural number
 * reduced into the range, a draw of random.random() or Math.random() is a
 * real in [0, 1), and random.choice([2, 3]) is a Coin.
 */
module Draws {
  /** A value returned by random.random() or Math.random(). */
  type Unit = r: real | 0.0 <= r < 1.0

  /** A value returned by random.choice([2, 3]): one coin, tails 2 and heads 3. */
  type Coin = c: int | c == 2 || c == 3 witness 2

  /** A value returned by random.choice([6, 7, 8, 9]). */
  type LineDraw = v: int | 6 <= v <= 9 witness 6

  /** random.randint(lo, hi) fed the raw draw d. */
  function RandInt(lo: int, hi: int, d: nat): (r: int)
    requires lo <= hi
    ensures lo <= r <= hi
  {
    lo + d % (hi - lo + 1)
  }

  /** Every value of the range is some draw's result, so no outcome is lost by the injection. */
  lemma RandIntCovers(lo: int, hi: int, v: int)
    requires lo <= v <= hi
    ensures RandInt(lo, hi, v - lo) == v
  {
  }

  /** The eight outcomes of tossing three coins, each once. */
  function AllCoinTosses(): (tosses: seq<seq<Coin>>)
    ensures |tosses| == 8
    ensures forall i :: 0 <= i < |tosses| ==> |tosses[i]| == 3
  {
    [[2, 2, 2], [2, 2, 3], [2, 3, 2], [2, 3, 3],
     [3, 2, 2], [3, 2, 3], [3, 3, 2], [3, 3, 3]]
  }

  /** Every toss of three coins is among the eight, and no outcome is listed twice. */
  lemma AllCoinTossesExact(coins: seq<Coin>)
    ensures |coins| == 3 <==> coins in AllCoinTosses()
    ensures forall i, j :: 0 <= i < j < 8 ==> AllCoinTosses()[i] != AllCoinTosses()[j]
  {
    if |coins| == 3 {
      assert coins == [coins[0], coins[1], coins[2]];
    }
  }
}
