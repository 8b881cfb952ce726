/** How many time steps a plate needs: exactly when the search has anything to find. */
module Solvability {
  import opened PlateGrammar
  import opened Ctc
  import opened BeamSearch

  /** Steps for the forced prefix, a blank between equal neighbours, and one for each character
      still free. */
  function MinSteps(k: Problem): int { |Spread(k.forced)| + TargetLen(k.g) - |k.forced| }

  lemma {:induction false} SpreadOfExtension(v: seq<Class>, w: seq<Class>)
    requires v <= w
    ensures |Spread(w)| >= |Spread(v)| + |w| - |v|
  {
    if v == w {
    } else {
      var n := |w| - 1;
      SpreadOfExtension(v, w[..n]);
      SpreadGrows(w[..n], w[n]);
      assert w[..n] + [w[n]] == w;
    }
  }

  /** A character allowed at `|w|` that does not repeat the last one. */
  function Fresh(w: seq<Class>): Class {
    if w == [] then 0 else if |w| == 1 then 41 else if w[|w| - 1] == 31 then 32 else 31
  }

  /** `w` completed without repeats. */
  function Completed(w: seq<Class>, n: nat): (v: seq<Class>)
    requires |w| <= n
    ensures |v| == n && w <= v
    decreases n - |w|
  {
    if |w| == n then w else Completed(w + [Fresh(w)], n)
  }

  lemma {:induction false} CompletedIsPlate(w: seq<Class>, g: Grammar)
    requires IsValidPrefix(w, g)
    ensures IsPlate(Completed(w, TargetLen(g)), g)
    ensures |Spread(Completed(w, TargetLen(g)))| == |Spread(w)| + TargetLen(g) - |w|
    decreases TargetLen(g) - |w|
  {
    if |w| == TargetLen(g) {
    } else {
      FreshIsValid(w, g);
      SpreadGrows(w, Fresh(w));
      CompletedIsPlate(w + [Fresh(w)], g);
    }
  }

  lemma FreshIsValid(w: seq<Class>, g: Grammar)
    requires IsValidPrefix(w, g) && |w| < TargetLen(g)
    ensures IsValidPrefix(w + [Fresh(w)], g) && (w != [] ==> Fresh(w) != w[|w| - 1])
  {
    if |w| == 1 {
      assert CharAllowed(w[0], 0, g);
    }
  }

  lemma {:induction false} BlanksAtTheEnd(s: seq<Class>, n: nat)
    requires |s| <= n
    ensures Collapse(s + seq(n - |s|, _ => BLANK)) == Collapse(s)
    decreases n - |s|
  {
    if |s| == n {
      assert s + seq(n - |s|, _ => BLANK) == s;
    } else {
      CollapseSnoc(s, BLANK);
      BlanksAtTheEnd(s + [BLANK], n);
      assert s + seq(n - |s|, _ => BLANK) == s + [BLANK] + seq(n - |s + [BLANK]|, _ => BLANK);
    }
  }

  /** There is a plate to be found exactly when the forced prefix is valid and the network has
      enough time steps for it. */
  lemma SolvableExactly(k: Problem)
    ensures (exists raw :: Solves(k, raw)) <==> IsValidPrefix(k.forced, k.g) && |k.lp| >= MinSteps(k)
  {
    hide Collapse;
    forall raw | Solves(k, raw) ensures IsValidPrefix(k.forced, k.g) && |k.lp| >= MinSteps(k) {
      PrefixOfPlate(Collapse(raw), k.forced, k.g);
      SpreadIsShortest(raw);
      SpreadOfExtension(k.forced, Collapse(raw));
    }
    if IsValidPrefix(k.forced, k.g) && |k.lp| >= MinSteps(k) {
      var w := Completed(k.forced, TargetLen(k.g));
      CompletedIsPlate(k.forced, k.g);
      SpreadCollapses(w);
      var raw := Spread(w) + seq(|k.lp| - |Spread(w)|, _ => BLANK);
      BlanksAtTheEnd(Spread(w), |k.lp|);
      assert Solves(k, raw);
    }
  }

  /** So an untruncated search returns a whole plate exactly then. */
  lemma FindsPlateExactly(k: Problem, r: Answer, path: seq<Class>)
    requires Optimal(k, r, path)
    ensures r.Answer? && |r.word| == TargetLen(k.g) <==> IsValidPrefix(k.forced, k.g) && |k.lp| >= MinSteps(k)
  {
    hide Solves, MinSteps, IsValidPrefix;
    SolvableExactly(k);
    if raw :| Solves(k, raw) {
      assert r.Answer?;
    }
  }
}
