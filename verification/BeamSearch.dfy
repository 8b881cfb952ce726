/** The constrained CTC beam search of infer_rknn_plate.py: sound for every width and top-k, and
    optimal when nothing is truncated. */
module BeamSearch {
  import opened PlateGrammar
  import opened Ctc
  import opened Ranking

  /** Log-probabilities of one time step, by class. */
  type Column = c: seq<real> | |c| == 74 witness seq(74, _ => 0.0)

  /** The score of a raw path: the sum of its log-probabilities. */
  function PathScore(lp: seq<Column>, raw: seq<Class>): real
    requires |raw| <= |lp|
  {
    if raw == [] then 0.0 else PathScore(lp, raw[..|raw| - 1]) + lp[|raw| - 1][raw[|raw| - 1]]
  }

  /** A raw path and its score. */
  type Beam = Scored<seq<Class>>

  /** The network's output, what the answer must look like, and the exponential, of which nothing
      is assumed here. */
  datatype Problem = Problem(lp: seq<Column>, g: Grammar, forced: seq<Class>, exp: real -> real)

  /** A raw path over the first steps that the three checks let pass. */
  predicate Admits(k: Problem, raw: seq<Class>) { Fits(Collapse(raw), k.g, k.forced) }

  /** A beam after `t` steps is an admitted path of exactly that length with its true score. */
  predicate BeamOk(k: Problem, t: nat, b: Beam)
    requires t <= |k.lp|
  {
    |b.item| == t && Admits(k, b.item) && b.score == PathScore(k.lp, b.item)
  }

  predicate AllOk(k: Problem, t: nat, beams: seq<Beam>)
    requires t <= |k.lp|
  {
    forall b | b in beams :: BeamOk(k, t, b)
  }

  ghost predicate Has(beams: seq<Beam>, raw: seq<Class>) { exists b | b in beams :: b.item == raw }

  /** Every admitted path of length `t` is among the beams. */
  ghost predicate Complete(k: Problem, t: nat, beams: seq<Beam>) {
    forall raw: seq<Class> | |raw| == t && Admits(k, raw) :: Has(beams, raw)
  }

  /** Pruning is sound: a path that the checks refuse has no admitted extension. */
  lemma AdmitsPrefix(k: Problem, raw: seq<Class>, x: Class)
    requires Admits(k, raw + [x])
    ensures Admits(k, raw)
  {
    CollapseSnoc(raw, x);
    hide Collapse, Fits;
    if Collapse(raw + [x]) != Collapse(raw) {
      FitsPrefix(Collapse(raw), x, k.g, k.forced);
    }
  }

  /** A blank can always follow. */
  lemma BlankAdmitted(k: Problem, raw: seq<Class>)
    requires Admits(k, raw)
    ensures Admits(k, raw + [BLANK])
  {
    CollapseSnoc(raw, BLANK);
  }

  // ---------------------------------------------------------------- one time step

  function ClassScores(column: Column): (s: seq<Scored<Class>>)
    ensures |s| == 74 && forall c: Class :: Scored(c, column[c]) in s
    ensures forall x | x in s :: x.score == column[x.item]
  {
    var s := seq(74, (i: nat) requires i < 74 => Scored(i as Class, column[i]));
    assert forall c: Class :: s[c] == Scored(c, column[c]);
    s
  }

  /** `np.argsort(column)[-topk:]` */
  function TopClasses(column: Column, topk: int): (top: seq<Class>)
    ensures |top| == LastCount(74, topk)
  {
    var n := LastCount(74, topk);
    var best := Best(ClassScores(column), n);
    seq(n, (i: nat) requires i < n => best[n - 1 - i].item)
  }

  lemma TopInBest(column: Column, topk: int, c: Class)
    ensures Scored(c, column[c]) in Best(ClassScores(column), LastCount(74, topk)) ==> c in TopClasses(column, topk)
  {
    var n := LastCount(74, topk);
    var best := Best(ClassScores(column), n);
    if Scored(c, column[c]) in best {
      var i :| 0 <= i < n && best[i] == Scored(c, column[c]);
      assert TopClasses(column, topk)[n - 1 - i] == c;
    }
  }

  /** They are the classes of highest score; all of them when `topk` is 0 or at least 74. */
  lemma TopClassesAreBest(column: Column, topk: int, c: Class)
    requires c !in TopClasses(column, topk)
    ensures LastCount(74, topk) < 74
    ensures forall d | d in TopClasses(column, topk) :: column[d] >= column[c]
  {
    var n := LastCount(74, topk);
    var best := Best(ClassScores(column), n);
    BestOnes(ClassScores(column), n);
    TopInBest(column, topk, c);
    forall d | d in TopClasses(column, topk) ensures column[d] >= column[c] {
      var i :| 0 <= i < n && TopClasses(column, topk)[i] == d;
      assert best[n - 1 - i] in best;
    }
  }

  /** The classes tried at one step: the best ones, the blank and the forced ones. */
  predicate Tried(column: Column, topk: int, forced: seq<Class>, c: Class) {
    c in TopClasses(column, topk) || c == BLANK || c in forced
  }

  /** These classes as a list. */
  method CandidateClasses(column: Column, topk: int, forced: seq<Class>) returns (top: seq<Class>)
    ensures forall c :: c in top <==> Tried(column, topk, forced, c)
    ensures LastCount(74, topk) == 74 ==> |top| == 74 && forall c: Class :: c in top
  {
    ghost var first := TopClasses(column, topk);
    ghost var everything := LastCount(74, topk) == 74;
    top := TopClasses(column, topk);
    assert everything ==> forall c: Class :: c in top by {
      forall c: Class | everything ensures c in top {
        if c !in top {
          TopClassesAreBest(column, topk, c);
        }
      }
    }
    hide TopClasses;
    if BLANK !in top {
      top := top + [BLANK];
    }
    var i := 0;
    while i < |forced|
      invariant i <= |forced| && first <= top && BLANK in top
      invariant forall c :: c in top <==> c in first || c == BLANK || c in forced[..i]
      invariant everything ==> top == first
    {
      if forced[i] !in top {
        top := top + [forced[i]];
      }
      i := i + 1;
    }
  }

  // ---------------------------------------------------------------- the beam dictionary

  /** No raw path twice, as the keys of a dictionary. */
  predicate OneEach(beams: seq<Beam>) { forall i, j | 0 <= i < j < |beams| :: beams[i].item != beams[j].item }

  /** `next_beams[raw] = score`, unless a better score is there already. */
  method Put(next: seq<Beam>, raw: seq<Class>, score: real) returns (r: seq<Beam>)
    ensures forall b | b in r :: b in next || b == Scored(raw, score)
    ensures Has(r, raw) && forall q :: Has(next, q) ==> Has(r, q)
    ensures |r| <= |next| + 1 && r != []
    ensures OneEach(next) ==> OneEach(r)
    ensures !Has(next, raw) ==> r == next + [Scored(raw, score)]
    ensures Scored(raw, score) in next && OneEach(next) ==> r == next
  {
    var i := 0;
    while i < |next| && next[i].item != raw
      invariant i <= |next| && forall j | 0 <= j < i :: next[j].item != raw
    {
      i := i + 1;
    }
    if i == |next| {
      r := next + [Scored(raw, score)];
      assert r[i] in r;
      assert forall b | b in next :: b in r;
    } else if score > next[i].score {
      r := next[i := Scored(raw, score)];
      assert r[i] in r;
      forall q | Has(next, q) ensures Has(r, q) {
        var j :| 0 <= j < |next| && next[j].item == q;
        assert r[j] in r && r[j].item == q;
      }
    } else {
      r := next;
      assert next[i] in r;
    }
  }

  /** `x` is beam `b` with one of the classes added, admitted, and with its score. */
  predicate Extends(k: Problem, t: nat, b: Beam, top: seq<Class>, x: Beam)
    requires t < |k.lp|
  {
    && |x.item| > 0 && x.item[..|x.item| - 1] == b.item && x.item[|x.item| - 1] in top
    && x.score == b.score + k.lp[t][x.item[|x.item| - 1]] && Admits(k, x.item)
  }

  lemma ExtensionHas(k: Problem, t: nat, b: Beam, top: seq<Class>, c: Class)
    requires t < |k.lp| && c in top && Admits(k, b.item + [c])
    ensures Extends(k, t, b, top, Scored(b.item + [c], b.score + k.lp[t][c]))
  {
    assert (b.item + [c])[..|b.item|] == b.item;
  }

  lemma ExtensionIs(k: Problem, t: nat, b: Beam, top: seq<Class>, x: Beam)
    requires t < |k.lp| && Extends(k, t, b, top, x)
    ensures var c := x.item[|x.item| - 1];
            c in top && x == Scored(b.item + [c], b.score + k.lp[t][c]) && Admits(k, b.item + [c])
  {
    assert x.item == x.item[..|x.item| - 1] + [x.item[|x.item| - 1]];
  }

  /** Nothing in `next` extends `b` yet. */
  predicate NotYet(b: Beam, next: seq<Beam>) {
    forall x | x in next :: |x.item| > 0 && x.item[..|x.item| - 1] != b.item
  }

  /** One class. */
  method ExtendBy(k: Problem, t: nat, b: Beam, top: seq<Class>, j: nat, ghost next0: seq<Beam>, next1: seq<Beam>)
    returns (next: seq<Beam>)
    requires t < |k.lp| && j < |top| && OneEach(next1) && NotYet(b, next0)
    requires forall x :: x in next1 <==> x in next0 || Extends(k, t, b, top[..j], x)
    ensures OneEach(next) && |next| <= |next1| + 1 && |next1| <= |next|
    ensures forall x :: x in next <==> x in next0 || Extends(k, t, b, top[..j + 1], x)
  {
    hide Collapse, Fits;
    var c := top[j];
    var newRaw := b.item + [c];
    var prefix := CtcCollapse(newRaw);
    assert top[..j + 1] == top[..j] + [c];
    var x := Scored(newRaw, b.score + k.lp[t][c]);
    next := next1;
    if Fits(prefix, k.g, k.forced) {
      ExtensionHas(k, t, b, top[..j + 1], c);
      next := Put(next1, newRaw, b.score + k.lp[t][c]);
      assert Has(next1, newRaw) ==> x in next1 by {
        if Has(next1, newRaw) {
          var y :| y in next1 && y.item == newRaw;
          assert newRaw[..|newRaw| - 1] == b.item;
          ExtensionIs(k, t, b, top[..j], y);
        }
      }
      hide Has, OneEach;
    }
    forall y | Extends(k, t, b, top[..j + 1], y) ensures y in next {
      ExtensionIs(k, t, b, top[..j + 1], y);
    }
  }

  /** All extensions of one beam. */
  method ExtendOne(k: Problem, t: nat, b: Beam, top: seq<Class>, next0: seq<Beam>) returns (next: seq<Beam>)
    requires t < |k.lp| && OneEach(next0) && NotYet(b, next0)
    ensures OneEach(next) && |next| <= |next0| + |top|
    ensures forall x :: x in next <==> x in next0 || Extends(k, t, b, top, x)
  {
    hide Extends, OneEach, NotYet;
    next := next0;
    var j := 0;
    assert forall x :: !Extends(k, t, b, top[..0], x) by {
      NoneExtends(k, t, b);
    }
    while j < |top|
      invariant j <= |top| && OneEach(next) && |next| <= |next0| + j
      invariant forall x :: x in next <==> x in next0 || Extends(k, t, b, top[..j], x)
    {
      next := ExtendBy(k, t, b, top, j, next0, next);
      j := j + 1;
    }
    assert top[..j] == top;
  }

  lemma NoneExtends(k: Problem, t: nat, b: Beam)
    requires t < |k.lp|
    ensures forall x :: !Extends(k, t, b, [], x)
  {
  }

  ghost predicate ExtendsOne(k: Problem, t: nat, beams: seq<Beam>, top: seq<Class>, x: Beam)
    requires t < |k.lp|
  {
    exists b | b in beams :: Extends(k, t, b, top, x)
  }

  /** The dictionary of one step: every admitted extension of a beam by a class tried, once, with its
      score, and nothing else. */
  ghost predicate Extensions(k: Problem, t: nat, beams: seq<Beam>, top: seq<Class>, next: seq<Beam>)
    requires t < |k.lp|
  {
    OneEach(next) && forall x :: x in next <==> ExtendsOne(k, t, beams, top, x)
  }

  lemma NewBeam(k: Problem, t: nat, beams: seq<Beam>, i: nat, top: seq<Class>, next: seq<Beam>)
    requires t < |k.lp| && OneEach(beams) && i < |beams| && Extensions(k, t, beams[..i], top, next)
    ensures NotYet(beams[i], next)
  {
    hide Admits;
    forall x | x in next ensures |x.item| > 0 && x.item[..|x.item| - 1] != beams[i].item {
      assert ExtendsOne(k, t, beams[..i], top, x);
      var b :| b in beams[..i] && Extends(k, t, b, top, x);
      var j :| 0 <= j < i && beams[j] == b;
    }
  }

  lemma OneMoreBeam(k: Problem, t: nat, beams: seq<Beam>, i: nat, top: seq<Class>, x: Beam)
    requires t < |k.lp| && i < |beams|
    ensures ExtendsOne(k, t, beams[..i + 1], top, x) <==>
            ExtendsOne(k, t, beams[..i], top, x) || Extends(k, t, beams[i], top, x)
  {
    hide Extends;
    assert beams[..i + 1] == beams[..i] + [beams[i]];
    if Extends(k, t, beams[i], top, x) {
      assert beams[i] in beams[..i + 1];
    }
  }

  /** All extensions of all beams, exactly. The set never dies out, and nothing admitted is missed when
      every class is tried. */
  method ExtendAll(k: Problem, t: nat, beams: seq<Beam>, top: seq<Class>) returns (next: seq<Beam>)
    requires t < |k.lp| && AllOk(k, t, beams) && OneEach(beams) && BLANK in top
    ensures Extensions(k, t, beams, top, next)
    ensures AllOk(k, t + 1, next) && |next| <= |beams| * |top|
    ensures beams != [] ==> next != []
    ensures Complete(k, t, beams) && (forall c: Class :: c in top) ==> Complete(k, t + 1, next)
  {
    hide Admits, Has, BeamOk, Extends, OneEach, ExtendsOne;
    next := [];
    NoBeams(k, t, top);
    var i := 0;
    while i < |beams|
      invariant i <= |beams| && Extensions(k, t, beams[..i], top, next) && |next| <= i * |top|
    {
      NewBeam(k, t, beams, i, top, next);
      ghost var before := next;
      next := ExtendOne(k, t, beams[i], top, next);
      forall x ensures x in next <==> ExtendsOne(k, t, beams[..i + 1], top, x) {
        OneMoreBeam(k, t, beams, i, top, x);
      }
      assert (i + 1) * |top| == i * |top| + |top|;
      i := i + 1;
    }
    assert beams[..i] == beams;
    ExtensionsAreOk(k, t, beams, top, next);
    if Complete(k, t, beams) && forall c: Class :: c in top {
      forall b, c | b in beams && c in top && Admits(k, b.item + [c]) ensures Has(next, b.item + [c]) {
        ExtensionThere(k, t, beams, top, next, b, c);
      }
      CompleteStep(k, t, beams, top, next);
    }
  }

  lemma NoBeams(k: Problem, t: nat, top: seq<Class>)
    requires t < |k.lp|
    ensures Extensions(k, t, [], top, [])
  {
  }

  lemma ExtensionThere(k: Problem, t: nat, beams: seq<Beam>, top: seq<Class>, next: seq<Beam>, b: Beam, c: Class)
    requires t < |k.lp| && Extensions(k, t, beams, top, next) && b in beams && c in top && Admits(k, b.item + [c])
    ensures Has(next, b.item + [c])
  {
    ExtensionHas(k, t, b, top, c);
    hide Extends, Admits;
    assert ExtendsOne(k, t, beams, top, Scored(b.item + [c], b.score + k.lp[t][c]));
  }

  lemma ExtensionsAreOk(k: Problem, t: nat, beams: seq<Beam>, top: seq<Class>, next: seq<Beam>)
    requires t < |k.lp| && AllOk(k, t, beams) && BLANK in top && Extensions(k, t, beams, top, next)
    ensures AllOk(k, t + 1, next) && (beams != [] ==> next != [])
  {
    hide Admits;
    forall x | x in next ensures BeamOk(k, t + 1, x) {
      assert ExtendsOne(k, t, beams, top, x);
      var b :| b in beams && Extends(k, t, b, top, x);
      assert BeamOk(k, t, b);
    }
    if beams != [] {
      assert beams[0] in beams && BeamOk(k, t, beams[0]);
      BlankAdmitted(k, beams[0].item);
      ExtensionThere(k, t, beams, top, next, beams[0], BLANK);
    }
  }

  lemma CompleteStep(k: Problem, t: nat, beams: seq<Beam>, top: seq<Class>, next: seq<Beam>)
    requires Complete(k, t, beams) && forall c: Class :: c in top
    requires forall b, c | b in beams && c in top && Admits(k, b.item + [c]) :: Has(next, b.item + [c])
    ensures Complete(k, t + 1, next)
  {
    hide Admits;
    forall raw: seq<Class> | |raw| == t + 1 && Admits(k, raw) ensures Has(next, raw) {
      var (q, c) := (raw[..t], raw[t]);
      assert raw == q + [c];
      AdmitsPrefix(k, q, c);
      assert Has(beams, q);
      var b :| b in beams && b.item == q;
      assert Has(next, b.item + [c]);
    }
  }

  /** `kept` are as many of `next` as the slice says, and none cut scores above one kept. */
  predicate Pruned(next: seq<Beam>, width: int, kept: seq<Beam>) {
    && |kept| == TakeCount(|next|, width) && OneEach(kept)
    && (forall b | b in kept :: b in next)
    && forall b, c | b in kept && c in next && c !in kept :: b.score >= c.score
  }

  lemma BestAreOneEach(next: seq<Beam>, n: nat)
    requires OneEach(next) && n <= |next|
    ensures OneEach(Best(next, n))
  {
    SortKeepsDistinct(next);
    var sorted := SortDescending(next);
    forall i, j | 0 <= i < j < n ensures Best(next, n)[i].item != Best(next, n)[j].item {
      assert sorted[i] in next && sorted[j] in next && sorted[i] != sorted[j];
    }
  }

  /** `dict(sorted(next_beams.items(), reverse=True)[:width])`: the best ones survive. */
  method Prune(next: seq<Beam>, width: int) returns (beams: seq<Beam>)
    requires OneEach(next)
    ensures Pruned(next, width, beams)
    ensures width >= |next| ==> forall b | b in next :: b in beams
  {
    beams := Best(next, TakeCount(|next|, width));
    BestOnes(next, TakeCount(|next|, width));
    BestAreOneEach(next, TakeCount(|next|, width));
  }

  predicate ListsTried(column: Column, topk: int, forced: seq<Class>, top: seq<Class>) {
    forall c :: c in top <==> Tried(column, topk, forced, c)
  }

  /** What one time step makes of the beams: of all admitted extensions by the classes tried, the
      `width` best. */
  ghost predicate Stepped(k: Problem, t: nat, width: int, topk: int, beams: seq<Beam>, kept: seq<Beam>)
    requires t < |k.lp|
  {
    exists top, next ::
      ListsTried(k.lp[t], topk, k.forced, top) && Extensions(k, t, beams, top, next) && Pruned(next, width, kept)
  }

  function Pow74(n: nat): (p: nat)
    ensures p >= 1
  {
    if n == 0 then 1 else 74 * Pow74(n - 1)
  }

  lemma {:induction false} Pow74Grows(m: nat, n: nat)
    requires m <= n
    ensures Pow74(m) <= Pow74(n)
  {
    if m < n {
      Pow74Grows(m, n - 1);
    }
  }

  /** Nothing is ever cut off: every class is tried and every path kept. */
  predicate Untruncated(k: Problem, width: int, topk: int) {
    LastCount(74, topk) == 74 && width >= Pow74(|k.lp|)
  }

  /** One round of the loop over time steps. */
  method TimeStep(k: Problem, t: nat, beams: seq<Beam>, width: int, topk: int) returns (kept: seq<Beam>)
    requires t < |k.lp| && AllOk(k, t, beams) && OneEach(beams)
    ensures Stepped(k, t, width, topk, beams, kept) && OneEach(kept) && AllOk(k, t + 1, kept)
    ensures beams != [] && width >= 1 ==> kept != []
    ensures Untruncated(k, width, topk) && Complete(k, t, beams) && |beams| <= Pow74(t) ==>
              Complete(k, t + 1, kept) && |kept| <= Pow74(t + 1)
  {
    hide Has, Admits, BeamOk, OneEach, ExtendsOne, Extends, TopClasses;
    var top := CandidateClasses(k.lp[t], topk, k.forced);
    var next := ExtendAll(k, t, beams, top);
    ghost var all := next;
    if next == [] {
      next := beams;
    }
    kept := Prune(next, width);
    assert ListsTried(k.lp[t], topk, k.forced, top) && Extensions(k, t, beams, top, all) && Pruned(all, width, kept);
    if Untruncated(k, width, topk) && Complete(k, t, beams) && |beams| <= Pow74(t) {
      Pow74Grows(t + 1, |k.lp|);
      Product(|beams|, Pow74(t));
      assert Complete(k, t + 1, kept) by {
        KeepsHas(next, kept);
      }
    }
  }

  lemma Product(n: nat, p: nat)
    requires n <= p
    ensures n * 74 <= 74 * p
  {
  }

  lemma KeepsHas(next: seq<Beam>, kept: seq<Beam>)
    requires forall b | b in next :: b in kept
    ensures forall q :: Has(next, q) ==> Has(kept, q)
  {
  }

  // ---------------------------------------------------------------- the answer

  datatype Answer = NoAnswer | Answer(word: seq<Class>, prob: real, score: real)

  /** The two collection loops: words of full length, or else any non-empty ones. */
  predicate Eligible(k: Problem, raw: seq<Class>, full: bool) {
    var w := Collapse(raw);
    && MatchesForced(w, k.forced) && IsValidPrefix(w, k.g)
    && if full then |w| == TargetLen(k.g) else w != []
  }

  method Collect(k: Problem, beams: seq<Beam>, full: bool) returns (from: seq<Beam>)
    ensures forall b :: b in from <==> b in beams && Eligible(k, b.item, full)
  {
    from := [];
    var i := 0;
    while i < |beams|
      invariant i <= |beams|
      invariant forall b :: b in from <==> b in beams[..i] && Eligible(k, b.item, full)
    {
      var w := CtcCollapse(beams[i].item);
      if MatchesForced(w, k.forced) && IsValidPrefix(w, k.g) && if full then |w| == TargetLen(k.g) else w != [] {
        from := from + [beams[i]];
      }
      i := i + 1;
    }
    assert beams[..i] == beams;
  }

  /** `max(candidates, key=score)` */
  method MaxByScore(s: seq<Beam>) returns (m: Beam)
    requires s != []
    ensures m in s && forall b | b in s :: b.score <= m.score
  {
    m := s[0];
    var i := 1;
    while i < |s|
      invariant 1 <= i <= |s| && m in s && forall b | b in s[..i] :: b.score <= m.score
    {
      if s[i].score > m.score {
        m := s[i];
      }
      i := i + 1;
    }
    assert s[..i] == s;
  }

  /** `raw` is a whole path whose collapse is a plate of the type that starts with the forced
      prefix: what the search is for. */
  predicate Solves(k: Problem, raw: seq<Class>) {
    |raw| == |k.lp| && IsPlate(Collapse(raw), k.g) && k.forced <= Collapse(raw)
  }

  lemma SolvesIsEligible(k: Problem, raw: seq<Class>)
    requires |k.forced| <= TargetLen(k.g)
    ensures Solves(k, raw) <==> |raw| == |k.lp| && Admits(k, raw) && Eligible(k, raw, true)
  {
    hide Collapse;
    var w := Collapse(raw);
    if k.forced <= w {
      assert w[..|k.forced|] == k.forced;
    }
  }

  lemma PrefixOfPlate(w: seq<Class>, forced: seq<Class>, g: Grammar)
    requires IsPlate(w, g) && forced <= w
    ensures |forced| <= TargetLen(g) && IsValidPrefix(forced, g)
  {
    assert forall pos | 0 <= pos < |forced| :: forced[pos] == w[pos];
  }

  /** No plate starts with a prefix that is refused up front. */
  lemma RefusedPrefix(k: Problem, raw: seq<Class>)
    requires |k.forced| > TargetLen(k.g) || !IsValidPrefix(k.forced, k.g)
    ensures !Solves(k, raw)
  {
    hide Collapse, IsPlate, IsValidPrefix;
    if Solves(k, raw) {
      PrefixOfPlate(Collapse(raw), k.forced, k.g);
      assert false;
    }
  }

  /** What any answer owes to the path it came from. */
  predicate Sound(k: Problem, r: Answer, path: seq<Class>) {
    r.Answer? ==>
      && |path| == |k.lp| && r.word == Collapse(path) && r.score == PathScore(k.lp, path)
      && r.prob == k.exp(r.score / (if |k.lp| == 0 then 1.0 else |k.lp| as real))
      && r.word != [] && Fits(r.word, k.g, k.forced)
  }

  /** The answer is a whole plate that scores at least as high as every solution. */
  predicate Beats(k: Problem, r: Answer, raw: seq<Class>)
    requires |raw| == |k.lp|
  {
    r.Answer? && |r.word| == TargetLen(k.g) && r.score >= PathScore(k.lp, raw)
  }

  /** `r` beats every solution, and is one when it is a whole plate. */
  ghost predicate Optimal(k: Problem, r: Answer, path: seq<Class>) {
    && (forall raw | Solves(k, raw) :: Beats(k, r, raw))
    && (r.Answer? && |r.word| == TargetLen(k.g) ==> Solves(k, path))
  }

  /** The answer that the last beams give: the best-scored one that spells a word of full length, or
      else some fitting text, and none exactly when there is no such beam. */
  ghost predicate ChosenFrom(k: Problem, beams: seq<Beam>, r: Answer, path: seq<Class>) {
    var full := exists b | b in beams :: Eligible(k, b.item, true);
    && (r.Answer? <==> exists b | b in beams :: Eligible(k, b.item, full))
    && (r.Answer? ==>
          && Eligible(k, path, full) && r.word == Collapse(path) && Scored(path, r.score) in beams
          && forall c | c in beams && Eligible(k, c.item, full) :: c.score <= r.score)
  }

  method Choose(k: Problem, beams: seq<Beam>) returns (r: Answer, ghost path: seq<Class>)
    requires AllOk(k, |k.lp|, beams) && |k.forced| <= TargetLen(k.g)
    ensures Sound(k, r, path) && ChosenFrom(k, beams, r, path)
    ensures Complete(k, |k.lp|, beams) ==> Optimal(k, r, path)
  {
    hide Collapse, Fits, IsPlate, MatchesForced, IsValidPrefix;
    path := [];
    var candidates := Collect(k, beams, true);
    ghost var full := candidates;
    if candidates == [] {
      candidates := Collect(k, beams, false);
    }
    if candidates == [] {
      if Complete(k, |k.lp|, beams) {
        SolutionsAreThere(k, beams, full);
      }
      assert forall b | b in beams :: !Eligible(k, b.item, false) && !Eligible(k, b.item, true);
      return NoAnswer, path;
    }
    var best := MaxByScore(candidates);
    assert full != [] ==> full[0] in full;
    path := best.item;
    assert BeamOk(k, |k.lp|, best);
    var word := CtcCollapse(best.item);
    var steps := if |k.lp| == 0 then 1.0 else |k.lp| as real;
    r := Answer(word, k.exp(best.score / steps), best.score);
    EligibleWord(k, path, full != []);
    SolvesIsEligible(k, path);
    if Complete(k, |k.lp|, beams) {
      SolutionsAreThere(k, beams, full);
    }
  }

  lemma EligibleWord(k: Problem, raw: seq<Class>, full: bool)
    requires Eligible(k, raw, full)
    ensures Collapse(raw) != [] && (full ==> |Collapse(raw)| == TargetLen(k.g))
    ensures |Collapse(raw)| == TargetLen(k.g) ==> Eligible(k, raw, true)
  {
  }

  lemma SolutionsAreThere(k: Problem, beams: seq<Beam>, full: seq<Beam>)
    requires AllOk(k, |k.lp|, beams) && |k.forced| <= TargetLen(k.g) && Complete(k, |k.lp|, beams)
    requires forall b :: b in full <==> b in beams && Eligible(k, b.item, true)
    ensures forall raw | Solves(k, raw) :: exists b | b in full :: b.item == raw && b.score == PathScore(k.lp, raw)
  {
    hide Collapse, Fits, IsPlate, MatchesForced, IsValidPrefix;
    forall raw | Solves(k, raw)
      ensures exists b | b in full :: b.item == raw && b.score == PathScore(k.lp, raw)
    {
      SolvesIsEligible(k, raw);
      assert Has(beams, raw);
      var b :| b in beams && b.item == raw;
      assert BeamOk(k, |k.lp|, b);
    }
  }

  const START: seq<Beam> := [Scored([], 0.0)]

  /** The sets of beams of one search, before the first step and after each. */
  ghost predicate Trace(k: Problem, width: int, topk: int, trace: seq<seq<Beam>>) {
    && |trace| == |k.lp| + 1 && trace[0] == START
    && forall t | 0 <= t < |k.lp| :: Stepped(k, t, width, topk, trace[t], trace[t + 1])
  }

  /** A forced prefix that the grammar refuses. */
  predicate Refused(k: Problem) { k.forced != [] && (|k.forced| > TargetLen(k.g) || !IsValidPrefix(k.forced, k.g)) }

  /** What the search answers, for every width and top-k. */
  ghost predicate Found(k: Problem, width: int, topk: int, r: Answer, path: seq<Class>, trace: seq<seq<Beam>>) {
    if Refused(k) then r == NoAnswer
    else Trace(k, width, topk, trace) && ChosenFrom(k, trace[|k.lp|], r, path)
  }

  /** `constrained_ctc_decode_one`. Whatever the beam width and top-k, an answer is a fitting word
      with the true score of a whole path, the best in the last set of beams; when nothing is
      truncated it is the best solution. */
  method Decode(k: Problem, width: int, topk: int)
    returns (r: Answer, ghost path: seq<Class>, ghost trace: seq<seq<Beam>>)
    ensures Found(k, width, topk, r, path, trace)
    ensures Sound(k, r, path)
    ensures r.Answer? ==> r.word != [] && Fits(r.word, k.g, k.forced)
    ensures Untruncated(k, width, topk) ==> Optimal(k, r, path)
    ensures Untruncated(k, width, topk) ==> forall raw | Solves(k, raw) :: Beats(k, r, raw)
  {
    path, trace := [], [];
    if k.forced != [] && (|k.forced| > TargetLen(k.g) || !IsValidPrefix(k.forced, k.g)) {
      forall raw ensures !Solves(k, raw) {
        RefusedPrefix(k, raw);
      }
      return NoAnswer, path, trace;
    }
    var beams := [Scored([], 0.0)];
    trace := [beams];
    StartBeams(k);
    ghost var wide := Untruncated(k, width, topk);
    hide Collapse, Fits, Has, Admits, BeamOk, Stepped, ChosenFrom;
    var t := 0;
    while t < |k.lp|
      invariant t <= |k.lp| && AllOk(k, t, beams) && OneEach(beams)
      invariant |trace| == t + 1 && trace[0] == START && trace[t] == beams
      invariant forall i | 0 <= i < t :: Stepped(k, i, width, topk, trace[i], trace[i + 1])
      invariant wide ==> Complete(k, t, beams) && |beams| <= Pow74(t)
    {
      ghost var was := beams;
      beams := TimeStep(k, t, beams, width, topk);
      trace := trace + [beams];
      t := t + 1;
    }
    r, path := Choose(k, beams);
  }

  lemma StartBeams(k: Problem)
    ensures AllOk(k, 0, [Scored([], 0.0)]) && Complete(k, 0, [Scored([], 0.0)])
  {
    var b: Beam := Scored([], 0.0);
    assert b in [b];
  }

  // ---------------------------------------------------------------- clear readings are found

  predicate StrictlyBest(column: Column, c: Class) { forall d: Class | d != c :: column[d] < column[c] }

  /** At every step the class of `raw` scores strictly best. */
  predicate Peaked(k: Problem, raw: seq<Class>) {
    |raw| == |k.lp| && forall t | 0 <= t < |raw| :: StrictlyBest(k.lp[t], raw[t])
  }

  lemma {:induction false} PeakScoresBest(k: Problem, raw: seq<Class>, q: seq<Class>)
    requires Peaked(k, raw) && |q| <= |raw|
    ensures PathScore(k.lp, q) <= PathScore(k.lp, raw[..|q|])
    ensures q != raw[..|q|] ==> PathScore(k.lp, q) < PathScore(k.lp, raw[..|q|])
  {
    if q == [] {
    } else {
      var n := |q| - 1;
      PeakScoresBest(k, raw, q[..n]);
      assert StrictlyBest(k.lp[n], raw[n]);
      assert raw[..|q|][..n] == raw[..n];
      assert q == q[..n] + [q[n]] && raw[..|q|] == raw[..n] + [raw[n]];
    }
  }

  lemma PeakIsTop(column: Column, topk: int, c: Class)
    requires topk > -74 && StrictlyBest(column, c)
    ensures c in TopClasses(column, topk)
  {
    var d := TopClasses(column, topk)[0];
    assert d in TopClasses(column, topk);
    if c !in TopClasses(column, topk) {
      TopClassesAreBest(column, topk, c);
      assert false;
    }
  }

  lemma {:induction false} PrefixAdmitted(k: Problem, raw: seq<Class>, t: nat)
    requires Admits(k, raw) && t <= |raw|
    ensures Admits(k, raw[..t])
    decreases |raw| - t
  {
    hide Admits;
    if t == |raw| {
      assert raw[..t] == raw;
    } else {
      PrefixAdmitted(k, raw, t + 1);
      assert raw[..t + 1] == raw[..t] + [raw[t]];
      AdmitsPrefix(k, raw[..t], raw[t]);
    }
  }

  lemma SteppedIsOk(k: Problem, t: nat, width: int, topk: int, beams: seq<Beam>, kept: seq<Beam>)
    requires t < |k.lp| && AllOk(k, t, beams) && Stepped(k, t, width, topk, beams, kept)
    ensures AllOk(k, t + 1, kept)
  {
    hide ListsTried, Extensions, BeamOk;
    var top, next :|
      ListsTried(k.lp[t], topk, k.forced, top) && Extensions(k, t, beams, top, next) && Pruned(next, width, kept);
    BlankListed(k.lp[t], topk, k.forced, top);
    ExtensionsAreOk(k, t, beams, top, next);
  }

  lemma BlankListed(column: Column, topk: int, forced: seq<Class>, top: seq<Class>)
    requires ListsTried(column, topk, forced, top)
    ensures BLANK in top
  {
    assert Tried(column, topk, forced, BLANK);
  }

  function PeakBeam(k: Problem, raw: seq<Class>, t: nat): Beam
    requires t <= |raw| == |k.lp|
  {
    Scored(raw[..t], PathScore(k.lp, raw[..t]))
  }

  /** The peak's prefix is not cut. */
  lemma PeakKept(k: Problem, raw: seq<Class>, t: nat, width: int, next: seq<Beam>, kept: seq<Beam>)
    requires Peaked(k, raw) && |raw| == |k.lp| && t < |raw| && AllOk(k, t + 1, next) && width >= 1
    requires PeakBeam(k, raw, t + 1) in next && Pruned(next, width, kept)
    ensures PeakBeam(k, raw, t + 1) in kept
  {
    hide PathScore, Peaked, Admits;
    var x := PeakBeam(k, raw, t + 1);
    if x !in kept {
      var b := kept[0];
      assert b in kept && BeamOk(k, t + 1, b);
      PeakScoresBest(k, raw, b.item);
    }
  }

  lemma PeakStep(k: Problem, raw: seq<Class>, t: nat, width: int, topk: int, beams: seq<Beam>, kept: seq<Beam>)
    requires Peaked(k, raw) && |raw| == |k.lp| && Admits(k, raw) && t < |raw| && width >= 1 && topk > -74
    requires AllOk(k, t, beams) && PeakBeam(k, raw, t) in beams && Stepped(k, t, width, topk, beams, kept)
    ensures PeakBeam(k, raw, t + 1) in kept
  {
    var c := raw[t];
    assert StrictlyBest(k.lp[t], c);
    PeakIsTop(k.lp[t], topk, c);
    PrefixAdmitted(k, raw, t + 1);
    assert raw[..t + 1] == raw[..t] + [c] && raw[..t + 1][..t] == raw[..t];
    hide ListsTried, Extensions, BeamOk, Admits, Peaked, TopClasses, Extends;
    var top, next :|
      ListsTried(k.lp[t], topk, k.forced, top) && Extensions(k, t, beams, top, next) && Pruned(next, width, kept);
    BlankListed(k.lp[t], topk, k.forced, top);
    PeakListed(k.lp[t], topk, k.forced, top, c);
    ExtensionsAreOk(k, t, beams, top, next);
    ExtensionHas(k, t, PeakBeam(k, raw, t), top, c);
    ExtensionListed(k, t, beams, top, next, PeakBeam(k, raw, t), PeakBeam(k, raw, t + 1));
    PeakKept(k, raw, t, width, next, kept);
  }

  lemma PeakListed(column: Column, topk: int, forced: seq<Class>, top: seq<Class>, c: Class)
    requires ListsTried(column, topk, forced, top) && c in TopClasses(column, topk)
    ensures c in top
  {
    assert Tried(column, topk, forced, c);
  }

  lemma ExtensionListed(k: Problem, t: nat, beams: seq<Beam>, top: seq<Class>, next: seq<Beam>, b: Beam, x: Beam)
    requires t < |k.lp| && Extensions(k, t, beams, top, next) && b in beams && Extends(k, t, b, top, x)
    ensures x in next
  {
    hide Extends;
    assert ExtendsOne(k, t, beams, top, x);
  }

  lemma {:induction false} PeakSurvives(k: Problem, raw: seq<Class>, t: nat, width: int, topk: int,
      trace: seq<seq<Beam>>)
    requires Peaked(k, raw) && |raw| == |k.lp| && Admits(k, raw) && t <= |raw| && width >= 1 && topk > -74
    requires Trace(k, width, topk, trace)
    ensures AllOk(k, t, trace[t]) && PeakBeam(k, raw, t) in trace[t]
  {
    if t == 0 {
      StartBeams(k);
      assert raw[..0] == [];
    } else {
      hide Stepped, Admits, Peaked, AllOk, PeakBeam;
      PeakSurvives(k, raw, t - 1, width, topk, trace);
      SteppedIsOk(k, t - 1, width, topk, trace[t - 1], trace[t]);
      PeakStep(k, raw, t - 1, width, topk, trace[t - 1], trace[t]);
    }
  }

  /** A clear reading is found by every search, however narrow: if at every step one class scores
      strictly best, and these classes spell a plate with the forced prefix, that plate is the answer. */
  lemma ClearReadingIsFound(k: Problem, raw: seq<Class>, width: int, topk: int,
      r: Answer, path: seq<Class>, trace: seq<seq<Beam>>)
    requires Peaked(k, raw) && Solves(k, raw) && width >= 1 && topk > -74
    requires Found(k, width, topk, r, path, trace)
    ensures r.Answer? && r.word == Collapse(raw) && path == raw
  {
    assert |raw| == |k.lp|;
    hide Collapse, Fits, IsPlate, Stepped, Peaked;
    PrefixOfPlate(Collapse(raw), k.forced, k.g);
    SolvesIsEligible(k, raw);
    PeakSurvives(k, raw, |raw|, width, topk, trace);
    assert raw[..|raw|] == raw;
    var last := trace[|k.lp|];
    assert Eligible(k, PeakBeam(k, raw, |raw|).item, true);
    assert BeamOk(k, |k.lp|, Scored(path, r.score));
    PeakScoresBest(k, raw, path);
  }
}
