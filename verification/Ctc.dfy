/** CTC collapse: the decoder's single pass against the two-step definition, and how it grows. */
module Ctc {
  import opened PlateGrammar

  /** Runs of equal symbols reduced to one. */
  function Merge(s: seq<Class>): seq<Class> {
    if |s| <= 1 then s
    else
      var m := Merge(s[..|s| - 1]);
      if s[|s| - 1] == s[|s| - 2] then m else m + [s[|s| - 1]]
  }

  /** Blanks removed. */
  function Strip(s: seq<Class>): seq<Class> {
    if s == [] then []
    else
      var r := Strip(s[..|s| - 1]);
      if s[|s| - 1] == BLANK then r else r + [s[|s| - 1]]
  }

  /** The CTC collapse: first merge repeats, then remove blanks. */
  function Collapse(s: seq<Class>): seq<Class> { Strip(Merge(s)) }

  /** One more symbol appends it, unless it is blank or repeats the symbol before. */
  lemma CollapseSnoc(s: seq<Class>, x: Class)
    ensures Collapse(s + [x]) ==
            if x == BLANK || (s != [] && x == s[|s| - 1]) then Collapse(s) else Collapse(s) + [x]
  {
    var t := s + [x];
    assert t[..|s|] == s;
    if s != [] && x != s[|s| - 1] {
      assert Merge(t)[..|Merge(s)|] == Merge(s);
    }
  }

  lemma CollapseNext(s: seq<Class>, i: nat, prev: Class)
    requires i < |s| && prev == if i == 0 then BLANK else s[i - 1]
    ensures Collapse(s[..i + 1]) ==
            if s[i] == BLANK || s[i] == prev then Collapse(s[..i]) else Collapse(s[..i]) + [s[i]]
  {
    hide Merge, Strip, Collapse;
    CollapseSnoc(s[..i], s[i]);
    assert s[..i + 1] == s[..i] + [s[i]];
  }

  /** `ctc_collapse`, one pass that remembers the previous symbol. */
  method CtcCollapse(indices: seq<Class>) returns (collapsed: seq<Class>)
    ensures collapsed == Collapse(indices)
  {
    assert Collapse([]) == [];
    hide Merge, Strip, Collapse;
    collapsed := [];
    var prev: Class := BLANK;
    var i := 0;
    while i < |indices|
      invariant i <= |indices| && collapsed == Collapse(indices[..i])
      invariant prev == if i == 0 then BLANK else indices[i - 1]
    {
      var idx := indices[i];
      CollapseNext(indices, i, prev);
      i := i + 1;
      if idx == BLANK {
        prev := BLANK;
        continue;
      }
      if idx != prev {
        collapsed := collapsed + [idx];
      }
      prev := idx;
    }
    assert indices[..i] == indices;
  }

  lemma {:induction false} CollapseHasNoBlank(s: seq<Class>)
    ensures BLANK !in Collapse(s) && |Collapse(s)| <= |s|
  {
    if s != [] {
      var n := |s| - 1;
      CollapseHasNoBlank(s[..n]);
      CollapseSnoc(s[..n], s[n]);
      assert s[..n] + [s[n]] == s;
    }
  }

  // ---------------------------------------------------------------- paths for a word

  /** The shortest path that collapses to `w`: a blank between equal neighbours. */
  function Spread(w: seq<Class>): (path: seq<Class>)
    ensures w != [] ==> path != [] && path[|path| - 1] == w[|w| - 1]
    ensures w == [] ==> path == []
  {
    if w == [] then []
    else
      var p := Spread(w[..|w| - 1]);
      if |w| >= 2 && w[|w| - 1] == w[|w| - 2] then p + [BLANK, w[|w| - 1]] else p + [w[|w| - 1]]
  }

  lemma {:induction false} SpreadCollapses(w: seq<Class>)
    requires BLANK !in w
    ensures Collapse(Spread(w)) == w
  {
    if w == [] {
    } else {
      hide Merge, Strip, Collapse;
      var n := |w| - 1;
      var p := Spread(w[..n]);
      SpreadCollapses(w[..n]);
      assert w == w[..n] + [w[n]];
      if n >= 1 && w[n] == w[n - 1] {
        CollapseSnoc(p, BLANK);
        CollapseSnoc(p + [BLANK], w[n]);
        assert p + [BLANK, w[n]] == p + [BLANK] + [w[n]];
      } else {
        CollapseSnoc(p, w[n]);
      }
    }
  }

  lemma SpreadGrows(w: seq<Class>, x: Class)
    ensures |Spread(w + [x])| == |Spread(w)| + if w != [] && x == w[|w| - 1] then 2 else 1
  {
    assert (w + [x])[..|w|] == w;
  }

  /** No shorter path will do. */
  lemma {:induction false} SpreadIsShortest(s: seq<Class>)
    ensures |Spread(Collapse(s))| <= |s|
    ensures s != [] && Collapse(s) != [] && s[|s| - 1] != BLANK ==> Collapse(s)[|Collapse(s)| - 1] == s[|s| - 1]
    ensures s != [] && s[|s| - 1] == BLANK ==> |Spread(Collapse(s))| < |s|
  {
    if s == [] {
    } else {
      hide Merge, Strip, Collapse;
      var n := |s| - 1;
      SpreadIsShortest(s[..n]);
      CollapseSnoc(s[..n], s[n]);
      assert s[..n] + [s[n]] == s;
      SpreadGrows(Collapse(s[..n]), s[n]);
    }
  }
}
