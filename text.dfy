/**
 * Python string helpers used by the core: the whitespace of str.isspace(),
 * str.strip(), str.split() without a separator, str.join() and str(n).
 */
module Text {
  /** The characters Python's str.isspace() accepts. */
  predicate IsSpace(c: char)
  {
    ('\t' <= c <= '\r') || ('\U{1c}' <= c <= ' ') || c == '\U{85}' || c == '\U{a0}'
    || c == '\U{1680}' || ('\U{2000}' <= c <= '\U{200a}') || c == '\U{2028}' || c == '\U{2029}'
    || c == '\U{202f}' || c == '\U{205f}' || c == '\U{3000}'
  }

  predicate AllSpace(s: string)
  {
    forall i :: 0 <= i < |s| ==> IsSpace(s[i])
  }

  /** s.lstrip() */
  function StripLeft(s: string): (r: string)
    ensures |r| <= |s| && r == s[|s| - |r|..]
    ensures r == [] || !IsSpace(r[0])
    ensures AllSpace(s[..|s| - |r|])
  {
    if s != [] && IsSpace(s[0]) then
      var r := StripLeft(s[1..]);
      SpaceCons(s[0], s[1..][..|s| - 1 - |r|]);
      assert s[..|s| - |r|] == [s[0]] + s[1..][..|s| - 1 - |r|];
      r
    else s
  }

  /** s.rstrip() */
  function StripRight(s: string): (r: string)
    ensures |r| <= |s| && r == s[..|r|]
    ensures r == [] || !IsSpace(r[|r| - 1])
    ensures AllSpace(s[|r|..])
  {
    if s != [] && IsSpace(s[|s| - 1]) then
      var r := StripRight(s[..|s| - 1]);
      SpaceSnoc(s[..|s| - 1][|r|..], s[|s| - 1]);
      assert s[|r|..] == s[..|s| - 1][|r|..] + [s[|s| - 1]];
      r
    else s
  }

  lemma SpaceCons(c: char, t: string)
    requires IsSpace(c) && AllSpace(t)
    ensures AllSpace([c] + t)
  {
    assert forall i :: 1 <= i < |t| + 1 ==> ([c] + t)[i] == t[i - 1];
  }

  lemma SpaceSnoc(t: string, c: char)
    requires AllSpace(t) && IsSpace(c)
    ensures AllSpace(t + [c])
  {
    assert forall i :: 0 <= i < |t| ==> (t + [c])[i] == t[i];
  }

  /** s.strip() */
  function Strip(s: string): string
  {
    StripLeft(StripRight(s))
  }

  /** Stripping removes only surrounding whitespace: it is empty exactly for all-whitespace text. */
  lemma StripEmpty(s: string)
    ensures Strip(s) == [] <==> AllSpace(s)
  {
    var t := StripRight(s);
    if Strip(s) == [] {
      assert AllSpace(s[|t|..]);
    }
  }

  /** Text that starts and ends with a non-whitespace character is left alone by strip(). */
  lemma StripKeeps(s: string)
    requires s != [] && !IsSpace(s[0]) && !IsSpace(s[|s| - 1])
    ensures Strip(s) == s
  {
  }

  /** The longest prefix without whitespace. */
  function Word(s: string): (w: string)
    ensures |w| <= |s| && w == s[..|w|]
    ensures !AllSpaceFree(s) || w == s
    ensures |w| < |s| ==> IsSpace(s[|w|])
    ensures forall i :: 0 <= i < |w| ==> !IsSpace(w[i])
  {
    if s == [] || IsSpace(s[0]) then [] else [s[0]] + Word(s[1..])
  }

  predicate AllSpaceFree(s: string)
  {
    forall i :: 0 <= i < |s| ==> !IsSpace(s[i])
  }

  /** s.split(): the maximal runs of non-whitespace characters, in order. */
  function Words(s: string): (ws: seq<string>)
    ensures forall i :: 0 <= i < |ws| ==> ws[i] != [] && AllSpaceFree(ws[i])
    decreases |s|
  {
    if s == [] then []
    else if IsSpace(s[0]) then Words(s[1..])
    else
      var w := Word(s);
      [w] + Words(s[|w|..])
  }

  /** sep.join(ws) */
  function Join(ws: seq<string>, sep: string): string
  {
    if ws == [] then "" else if |ws| == 1 then ws[0] else ws[0] + sep + Join(ws[1..], sep)
  }

  /** The characters of a text that are not whitespace, in order. */
  function Ink(s: string): string
  {
    if s == [] then "" else (if IsSpace(s[0]) then "" else [s[0]]) + Ink(s[1..])
  }

  lemma {:induction false} InkAppend(a: string, b: string)
    ensures Ink(a + b) == Ink(a) + Ink(b)
  {
    if a == [] {
      assert a + b == b;
    } else {
      var head := if IsSpace(a[0]) then "" else [a[0]];
      assert (a + b)[0] == a[0];
      assert (a + b)[1..] == a[1..] + b;
      InkAppend(a[1..], b);
      calc {
        Ink(a + b);
        head + Ink(a[1..] + b);
        head + (Ink(a[1..]) + Ink(b));
        (head + Ink(a[1..])) + Ink(b);
        Ink(a) + Ink(b);
      }
    }
  }

  lemma {:induction false} InkOfSpace(s: string)
    requires AllSpace(s)
    ensures Ink(s) == ""
  {
    if s != [] {
      InkOfSpace(s[1..]);
    }
  }

  lemma {:induction false} InkOfWord(s: string)
    requires AllSpaceFree(s)
    ensures Ink(s) == s
  {
    if s != [] {
      InkOfWord(s[1..]);
    }
  }

  lemma JoinNothingCons(w: string, ws: seq<string>)
    ensures Join([w] + ws, "") == w + Join(ws, "")
  {
    if ws != [] {
      assert ([w] + ws)[1..] == ws;
    }
  }

  lemma SplitAt(t: string, k: int)
    requires 0 <= k <= |t|
    ensures t == t[..k] + t[k..]
  {
  }

  /** Splitting on whitespace keeps every non-whitespace character, in order. */
  lemma {:induction false} WordsKeepInk(s: string)
    ensures Ink(Join(Words(s), "")) == Ink(s)
    decreases |s|
  {
    if s != [] {
      if IsSpace(s[0]) {
        WordsKeepInk(s[1..]);
      } else {
        var w := Word(s);
        var rest := s[|w|..];
        WordsKeepInk(rest);
        SplitAt(s, |w|);
        InkAppend(w, rest);
        InkOfWord(w);
        JoinNothingCons(w, Words(rest));
        InkAppend(w, Join(Words(rest), ""));
      }
    }
  }

  /** The characters at i and i + 1 are both whitespace. */
  predicate DoubleSpaceAt(s: string, i: int)
    requires 0 <= i < |s| - 1
  {
    IsSpace(s[i]) && IsSpace(s[i + 1])
  }

  /** No two neighbouring characters are both whitespace. */
  predicate NoDoubleSpace(s: string)
  {
    forall i :: 0 <= i < |s| - 1 ==> !DoubleSpaceAt(s, i)
  }

  /**
   * Words joined by single spaces: empty, or starting and ending with a
   * non-whitespace character, with no two whitespace characters side by side.
   */
  lemma {:induction false} JoinSpacedShape(ws: seq<string>)
    requires forall i :: 0 <= i < |ws| ==> ws[i] != [] && AllSpaceFree(ws[i])
    ensures var j := Join(ws, " ");
      (j == [] <==> ws == []) && (j != [] ==> !IsSpace(j[0]) && !IsSpace(j[|j| - 1])) && NoDoubleSpace(j)
  {
    if |ws| > 1 {
      var w, rest := ws[0], Join(ws[1..], " ");
      JoinSpacedShape(ws[1..]);
      var j := w + " " + rest;
      assert Join(ws, " ") == j;
      forall i | 0 <= i < |j| - 1
        ensures !DoubleSpaceAt(j, i)
      {
        if i < |w| {
          assert j[i] == w[i];
        } else if i == |w| {
          assert j[i + 1] == rest[0];
        } else {
          assert j[i] == rest[i - |w| - 1] && j[i + 1] == rest[i - |w|];
          assert !DoubleSpaceAt(rest, i - |w| - 1);
        }
      }
    } else if |ws| == 1 {
      assert Join(ws, " ") == ws[0];
    }
  }

  /** Joining with single spaces instead of nothing adds only whitespace. */
  lemma {:induction false} InkJoinSpace(ws: seq<string>)
    ensures Ink(Join(ws, " ")) == Ink(Join(ws, ""))
  {
    if |ws| > 1 {
      InkJoinSpace(ws[1..]);
      InkAppend(ws[0] + " ", Join(ws[1..], " "));
      InkAppend(ws[0], " ");
      InkAppend(ws[0], Join(ws[1..], ""));
      assert Ink(" ") == "";
      assert Join(ws, "") == ws[0] + Join(ws[1..], "") by {
        assert ws[0] + "" + Join(ws[1..], "") == ws[0] + Join(ws[1..], "");
      }
    }
  }

  /** " ".join(s.split()) keeps every non-whitespace character of s, in order. */
  lemma CollapseKeepsInk(s: string)
    ensures Ink(Join(Words(s), " ")) == Ink(s)
  {
    InkJoinSpace(Words(s));
    WordsKeepInk(s);
  }

  /** A text has no ink exactly when it is all whitespace. */
  lemma {:induction false} InkEmpty(s: string)
    ensures Ink(s) == "" <==> AllSpace(s)
  {
    if s != [] {
      InkEmpty(s[1..]);
      if AllSpace(s[1..]) && IsSpace(s[0]) {
        forall i | 0 <= i < |s|
          ensures IsSpace(s[i])
        {
          if i > 0 {
            assert s[i] == s[1..][i - 1];
          }
        }
      }
      if AllSpace(s) {
        assert forall i :: 0 <= i < |s| - 1 ==> s[1..][i] == s[i + 1];
      }
    }
  }

  /**
   * " ".join(s.split()) keeps the ink of s, is empty exactly when s has
   * no ink, and otherwise starts and ends with a non-whitespace character.
   */
  lemma CollapseShape(s: string)
    ensures var c := Join(Words(s), " ");
      Ink(c) == Ink(s) && (c == [] <==> Ink(s) == [])
      && (c != [] ==> !IsSpace(c[0]) && !IsSpace(c[|c| - 1]))
  {
    var c := Join(Words(s), " ");
    CollapseKeepsInk(s);
    JoinSpacedShape(Words(s));
    InkEmpty(c);
  }

  /** The decimal digits of a natural number, as str(n) writes them. */
  function NatToString(n: nat): (s: string)
    ensures s != []
    ensures forall i :: 0 <= i < |s| ==> '0' <= s[i] <= '9'
  {
    if n < 10 then [Digit(n)] else NatToString(n / 10) + [Digit(n % 10)]
  }

  function Digit(d: nat): (c: char)
    requires d < 10
    ensures '0' <= c <= '9'
  {
    "0123456789"[d]
  }

  /** The value a string of decimal digits denotes; NatToString's inverse. */
  function DigitsValue(s: string): int
  {
    if s == [] then 0 else 10 * DigitsValue(s[..|s| - 1]) + (s[|s| - 1] as int - '0' as int)
  }

  lemma {:induction false} NatToStringRoundTrip(n: nat)
    ensures DigitsValue(NatToString(n)) == n
  {
    var s := NatToString(n);
    if n >= 10 {
      NatToStringRoundTrip(n / 10);
      assert s[..|s| - 1] == NatToString(n / 10);
    }
  }

  /** str(n) is one-to-one, so str(n) keys and n keys address the same entries. */
  lemma NatToStringInjective(m: nat, n: nat)
    requires NatToString(m) == NatToString(n)
    ensures m == n
  {
    NatToStringRoundTrip(m);
    NatToStringRoundTrip(n);
  }

  /** str(n) for any integer. */
  function IntToString(n: int): string
  {
    if n < 0 then "-" + NatToString(-n) else NatToString(n)
  }
}
