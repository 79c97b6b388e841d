/**
 * Line values shared by every casting method of the system: 6 is old yin,
 * 7 young yang, 8 young yin and 9 old yang.  Old lines (6 and 9) are the
 * changing lines; a changed line settles into its opposite young line.
 * Lines are listed bottom first.
 */
module LineValues {
  predicate IsLineValue(v: int) { 6 <= v <= 9 }

  predicate AllLineValues(lines: seq<int>)
  {
    forall i :: 0 <= i < |lines| ==> IsLineValue(lines[i])
  }

  predicate IsChanging(v: int) { v == 6 || v == 9 }

  predicate IsYang(v: int) { v == 7 || v == 9 }

  /** The value a line takes once it has changed: old yin 6 becomes 7, old yang 9 becomes 8. */
  function Settle(v: int): (r: int)
    ensures IsLineValue(v) ==> IsLineValue(r) && !IsChanging(r)
    ensures IsChanging(v) ==> IsYang(r) != IsYang(v)
    ensures !IsChanging(v) ==> r == v
  {
    if v == 6 then 7 else if v == 9 then 8 else v
  }

  /** The transformed hexagram: every changing line settled, every other line kept. */
  function SettleAll(lines: seq<int>): (r: seq<int>)
    ensures |r| == |lines|
  {
    seq(|lines|, i requires 0 <= i < |lines| => Settle(lines[i]))
  }

  /** After the transformation nothing changes any more, so transforming twice is transforming once. */
  lemma SettleAllSettles(lines: seq<int>)
    requires AllLineValues(lines)
    ensures AllLineValues(SettleAll(lines))
    ensures forall i :: 0 <= i < |lines| ==> !IsChanging(SettleAll(lines)[i])
    ensures SettleAll(SettleAll(lines)) == SettleAll(lines)
  {
  }

  predicate Increasing(s: seq<int>)
  {
    forall i, j :: 0 <= i < j < |s| ==> s[i] < s[j]
  }

  /** Positions (0-based, bottom line first) of the changing lines, in ascending order. */
  function ChangingIndices(lines: seq<int>): seq<int>
  {
    if lines == [] then []
    else
      var before := ChangingIndices(lines[..|lines| - 1]);
      if IsChanging(lines[|lines| - 1]) then before + [|lines| - 1] else before
  }

  /** The changing indices are exactly the positions holding a 6 or a 9, each once, ascending. */
  lemma {:induction false} ChangingIndicesExact(lines: seq<int>)
    ensures Increasing(ChangingIndices(lines))
    ensures forall i :: 0 <= i < |ChangingIndices(lines)| ==> 0 <= ChangingIndices(lines)[i] < |lines|
    ensures forall k :: k in ChangingIndices(lines) <==> 0 <= k < |lines| && IsChanging(lines[k])
  {
    if lines != [] {
      var init := lines[..|lines| - 1];
      ChangingIndicesExact(init);
      forall k ensures k in ChangingIndices(lines) <==> 0 <= k < |lines| && IsChanging(lines[k]) {
        if 0 <= k < |init| {
          assert lines[k] == init[k];
        }
      }
    }
  }

  /** The changing lines numbered from 1 (bottom line 1, top line 6). */
  function ChangingLineNumbers(lines: seq<int>): seq<int>
  {
    var c := ChangingIndices(lines);
    seq(|c|, i requires 0 <= i < |c| => c[i] + 1)
  }

  lemma ChangingLineNumbersExact(lines: seq<int>)
    ensures Increasing(ChangingLineNumbers(lines))
    ensures forall i :: 0 <= i < |ChangingLineNumbers(lines)| ==> 1 <= ChangingLineNumbers(lines)[i] <= |lines|
    ensures forall n :: n in ChangingLineNumbers(lines) <==> 1 <= n <= |lines| && IsChanging(lines[n - 1])
  {
    var c := ChangingIndices(lines);
    ChangingIndicesExact(lines);
    forall n ensures n in ChangingLineNumbers(lines) <==> 1 <= n <= |lines| && IsChanging(lines[n - 1]) {
      if n in ChangingLineNumbers(lines) {
        var i :| 0 <= i < |c| && ChangingLineNumbers(lines)[i] == n;
        assert c[i] in c;
      }
      if 1 <= n <= |lines| && IsChanging(lines[n - 1]) {
        assert n - 1 in c;
        var i :| 0 <= i < |c| && c[i] == n - 1;
        assert ChangingLineNumbers(lines)[i] == n;
      }
    }
  }

  /** Casting one more line adds its number to the changing lines exactly when it changes. */
  lemma ChangingLineNumbersSnoc(lines: seq<int>, v: int)
    ensures ChangingLineNumbers(lines + [v])
         == ChangingLineNumbers(lines) + (if IsChanging(v) then [|lines| + 1] else [])
  {
    assert (lines + [v])[..|lines|] == lines;
  }

  /** A transformed hexagram has no changing line left. */
  lemma SettledHasNoChangingLines(lines: seq<int>)
    requires AllLineValues(lines)
    ensures ChangingIndices(SettleAll(lines)) == []
  {
    ChangingIndicesExact(SettleAll(lines));
    if ChangingIndices(SettleAll(lines)) != [] {
      assert ChangingIndices(SettleAll(lines))[0] in ChangingIndices(SettleAll(lines));
    }
  }

  /** 1 for a yang line (7 or 9), 0 for a yin line. */
  function YangBit(v: int): (b: int)
    ensures b == 0 || b == 1
    ensures b == 1 <==> IsYang(v)
  {
    if IsYang(v) then 1 else 0
  }

  predicate IsBits(b: seq<int>)
  {
    forall i :: 0 <= i < |b| ==> b[i] == 0 || b[i] == 1
  }

  /** The yin/yang pattern of a run of lines. */
  function Bits(lines: seq<int>): (r: seq<int>)
    ensures |r| == |lines| && IsBits(r)
    ensures forall i :: 0 <= i < |lines| ==> (r[i] == 1 <==> IsYang(lines[i]))
  {
    seq(|lines|, i requires 0 <= i < |lines| => YangBit(lines[i]))
  }

  function Pow2(n: nat): (r: nat)
    ensures r >= 1
  {
    if n == 0 then 1 else 2 * Pow2(n - 1)
  }

  /** A bit pattern read with its first element as the least significant bit. */
  function LsbValue(b: seq<int>): int
  {
    if b == [] then 0 else b[0] + 2 * LsbValue(b[1..])
  }

  /** A bit pattern read with its first element as the most significant bit, as int(s, 2) reads a string. */
  function MsbValue(b: seq<int>): int
  {
    if b == [] then 0 else 2 * MsbValue(b[..|b| - 1]) + b[|b| - 1]
  }

  lemma {:induction false} LsbValueRange(b: seq<int>)
    requires IsBits(b)
    ensures 0 <= LsbValue(b) < Pow2(|b|)
  {
    if b != [] {
      LsbValueRange(b[1..]);
    }
  }

  lemma {:induction false} MsbValueRange(b: seq<int>)
    requires IsBits(b)
    ensures 0 <= MsbValue(b) < Pow2(|b|)
  {
    if b != [] {
      MsbValueRange(b[..|b| - 1]);
    }
  }

  /** Three bits read from the first as least significant. */
  lemma LsbValue3(b: seq<int>)
    requires |b| == 3
    ensures LsbValue(b) == b[0] + 2 * b[1] + 4 * b[2]
  {
    assert b[1..][0] == b[1] && b[1..][1..][0] == b[2] && b[1..][1..][1..] == [];
    assert LsbValue(b[1..][1..]) == b[2];
    assert LsbValue(b[1..]) == b[1] + 2 * b[2];
  }

  /** Three bits read from the first as most significant. */
  lemma MsbValue3(b: seq<int>)
    requires |b| == 3
    ensures MsbValue(b) == 4 * b[0] + 2 * b[1] + b[2]
  {
    assert b[..2][1] == b[1] && b[..2][..1][0] == b[0] && b[..2][..1][..0] == [];
    assert MsbValue(b[..2][..1]) == b[0];
    assert MsbValue(b[..2]) == 2 * b[0] + b[1];
  }

  /** n equal bits read either way: 0 for all zeros, 2^n - 1 for all ones. */
  lemma {:induction false} ValueOfConstant(x: int, n: nat)
    requires x == 0 || x == 1
    ensures MsbValue(seq(n, _ => x)) == x * (Pow2(n) - 1)
    ensures LsbValue(seq(n, _ => x)) == x * (Pow2(n) - 1)
  {
    if n > 0 {
      ValueOfConstant(x, n - 1);
      assert seq(n, _ => x)[..n - 1] == seq(n - 1, _ => x);
      assert seq(n, _ => x)[1..] == seq(n - 1, _ => x);
    }
  }

  /** Six yin bits read as binary are 0. */
  lemma SixZerosValue()
    ensures MsbValue([0, 0, 0, 0, 0, 0]) == 0
  {
    ValueOfConstant(0, 6);
    assert seq(6, _ => 0) == [0, 0, 0, 0, 0, 0];
  }

  /** Six yang bits read as binary are 63. */
  lemma SixOnesValue()
    ensures MsbValue([1, 1, 1, 1, 1, 1]) == 63
  {
    ValueOfConstant(1, 6);
    assert seq(6, _ => 1) == [1, 1, 1, 1, 1, 1];
    assert Pow2(6) == 64;
  }

  /** Reading a + b from its first element: the bits of b count Pow2(|a|) times as much. */
  lemma {:induction false} LsbValueAppend(a: seq<int>, b: seq<int>)
    ensures LsbValue(a + b) == LsbValue(a) + Pow2(|a|) * LsbValue(b)
  {
    if a != [] {
      assert (a + b)[1..] == a[1..] + b;
      LsbValueAppend(a[1..], b);
    } else {
      assert a + b == b;
    }
  }

  /** Two patterns of one length with the same value are the same pattern. */
  lemma {:induction false} LsbValueInjective(a: seq<int>, b: seq<int>)
    requires IsBits(a) && IsBits(b) && |a| == |b|
    requires LsbValue(a) == LsbValue(b)
    ensures a == b
  {
    if a != [] {
      LsbValueInjective(a[1..], b[1..]);
      assert a == [a[0]] + a[1..];
      assert b == [b[0]] + b[1..];
    }
  }

  lemma {:induction false} MsbValueInjective(a: seq<int>, b: seq<int>)
    requires IsBits(a) && IsBits(b) && |a| == |b|
    requires MsbValue(a) == MsbValue(b)
    ensures a == b
  {
    if a != [] {
      var n := |a| - 1;
      MsbValueInjective(a[..n], b[..n]);
      assert a == a[..n] + [a[n]];
      assert b == b[..n] + [b[n]];
    }
  }

  /** Python's sum() of a list of integers. */
  function Sum(s: seq<int>): int
  {
    if s == [] then 0 else Sum(s[..|s| - 1]) + s[|s| - 1]
  }

  lemma Sum3(s: seq<int>)
    requires |s| == 3
    ensures Sum(s) == s[0] + s[1] + s[2]
  {
    var a, b := s[..1], s[..2];
    assert a[..0] == [] && b[..1] == a && s[..2] == b;
    assert Sum(a) == s[0];
    assert Sum(b) == s[0] + s[1];
  }

  /** Python's s[:n]: the first n elements, or all of a shorter list. */
  function PyTake<T>(s: seq<T>, n: nat): (r: seq<T>)
    ensures |r| == if |s| <= n then |s| else n
    ensures forall i :: 0 <= i < |r| ==> r[i] == s[i]
  {
    if |s| <= n then s else s[..n]
  }

  /** Python's s[n:]: what follows the first n elements, empty for a shorter list. */
  function PyDrop<T>(s: seq<T>, n: nat): (r: seq<T>)
    ensures PyTake(s, n) + r == s
  {
    if |s| <= n then [] else s[n..]
  }

  /** The lines in the opposite order: the hexagram turned upside down. */
  function Flip(lines: seq<int>): (r: seq<int>)
    ensures |r| == |lines|
  {
    seq(|lines|, i requires 0 <= i < |lines| => lines[|lines| - 1 - i])
  }

  /** Read first-as-most-significant, a bit pattern has the value of its flip read first-as-least-significant. */
  lemma {:induction false} MsbValueFlip(b: seq<int>)
    ensures MsbValue(b) == LsbValue(Flip(b))
  {
    if b != [] {
      MsbValueFlip(b[..|b| - 1]);
      assert Flip(b)[1..] == Flip(b[..|b| - 1]);
    }
  }
}
