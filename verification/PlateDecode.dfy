/** Plate decoding around the beam search in infer_rknn_plate.py: trying provinces, falling back
    over plate types, selecting one candidate, and correcting the province. */
module PlateDecode {
  import opened PlateGrammar
  import opened Ranking
  import opened Reals
  import opened BeamSearch

  datatype Option<T> = None | Some(value: T)

  type Province = n: nat | n < 31

  type ProvinceScores = s: seq<real> | |s| == 31 witness seq(31, _ => 0.0)

  /** One recogniser output: log-probabilities per time step, the early-step province scores, and
      the two transcendental functions, of which nothing is assumed. */
  datatype Net = Net(lp: seq<Column>, province: ProvinceScores, exp: real -> real, log: real -> real)

  datatype Options = Options(width: int, topk: int, aware: bool, provinceTopk: int, weight: real)

  function ProblemOf(n: Net, g: Grammar, forced: seq<Class>): Problem { Problem(n.lp, g, forced, n.exp) }

  function TextOf(r: Answer): seq<Class> { if r.Answer? then r.word else [] }

  function ProbOf(r: Answer): real { if r.Answer? then r.prob else 0.0 }

  /** `province_idx_from_text` */
  function ProvinceOf(text: seq<Class>): Option<Class> {
    if text != [] && IsProvince(text[0]) then Some(text[0]) else None
  }

  function ProvinceScore(n: Net, c: Option<Class>): Option<real> {
    if c.Some? && c.value < 31 then Some(n.province[c.value]) else None
  }

  /** `province_aware_combined_score` */
  function Combined(n: Net, prob: real, score: Option<real>, weight: real): real {
    n.log(Max(prob, 0.000000000001)) + if score.Some? then weight * score.value else 0.0
  }

  /** `exp` and `log` as they are: inverse to each other, increasing, turning sums into products. */
  ghost predicate Logarithmic(n: Net) {
    && n.exp(0.0) == 1.0 && (forall x | x > 0.0 :: n.exp(n.log(x)) == x)
    && (forall x, y :: n.exp(x + y) == n.exp(x) * n.exp(y))
    && (forall x, y | x < y :: 0.0 < n.exp(x) < n.exp(y))
  }

  /** The probability, not below 1e-12, weighed by the province score. */
  function Weighed(n: Net, prob: real, score: Option<real>, weight: real): real {
    Max(prob, 0.000000000001) * if score.Some? then n.exp(weight * score.value) else 1.0
  }

  lemma ExpOfSum(n: Net, x: real, y: real)
    requires Logarithmic(n)
    ensures n.exp(x + y) == n.exp(x) * n.exp(y) && n.exp(x) > 0.0
    ensures x < y <==> n.exp(x) < n.exp(y)
  {
    assert n.exp(x) < n.exp(x + 1.0);
  }

  lemma ExpOfLog(n: Net, x: real)
    requires Logarithmic(n) && x > 0.0
    ensures n.exp(n.log(x)) == x
  {
  }

  lemma ExpOfZero(n: Net)
    requires Logarithmic(n)
    ensures n.exp(0.0) == 1.0
  {
  }

  lemma ExpOfCombined(n: Net, prob: real, score: Option<real>, weight: real)
    requires Logarithmic(n)
    ensures n.exp(Combined(n, prob, score, weight)) == Weighed(n, prob, score, weight)
  {
    hide Logarithmic;
    var p := Max(prob, 0.000000000001);
    var d := if score.Some? then weight * score.value else 0.0;
    ExpOfLog(n, p);
    ExpOfZero(n);
    ExpOfSum(n, n.log(p), d);
  }

  /** Ranking by the combined score is ranking by probability times the exponential of the weighted
      province score. */
  lemma CombinedRanks(n: Net, p: real, s: Option<real>, q: real, t: Option<real>, weight: real)
    requires Logarithmic(n)
    ensures Combined(n, p, s, weight) < Combined(n, q, t, weight) <==>
            Weighed(n, p, s, weight) < Weighed(n, q, t, weight)
  {
    ExpOfCombined(n, p, s, weight);
    ExpOfCombined(n, q, t, weight);
    hide Logarithmic, Combined, Weighed;
    ExpOfSum(n, Combined(n, p, s, weight), Combined(n, q, t, weight));
  }

  // ---------------------------------------------------------------- trying provinces

  /** One decode and what it is ranked by. */
  datatype Attempt = Attempt(province: Option<Class>, answer: Answer, score: Option<real>, combined: real)

  /** Any answer of a decode, forced or not, is an answer of the unforced problem. */
  ghost predicate Fair(n: Net, g: Grammar, r: Answer) { exists path :: Sound(ProblemOf(n, g, []), r, path) }

  /** `r` is what the search with this forced prefix answers. */
  ghost predicate Searched(n: Net, g: Grammar, o: Options, forced: seq<Class>, r: Answer) {
    exists path, trace :: SearchedBy(n, g, o, forced, r, path, trace)
  }

  ghost predicate SearchedBy(n: Net, g: Grammar, o: Options, forced: seq<Class>, r: Answer,
      path: seq<Class>, trace: seq<seq<Beam>>)
  {
    var k := ProblemOf(n, g, forced);
    && Found(k, o.width, o.topk, r, path, trace) && Sound(k, r, path)
    && (Untruncated(k, o.width, o.topk) ==> Optimal(k, r, path))
  }

  lemma ForcedIsFair(n: Net, g: Grammar, forced: seq<Class>, r: Answer, path: seq<Class>)
    requires Sound(ProblemOf(n, g, forced), r, path)
    ensures Fair(n, g, r)
    ensures |forced| == 1 && TextOf(r) != [] ==> TextOf(r)[0] == forced[0]
  {
    if r.Answer? {
      ForcedKept(r.word, g, forced);
    }
    assert Sound(ProblemOf(n, g, []), r, path);
  }

  function ProvinceList(scores: ProvinceScores): (s: seq<Scored<Province>>)
    ensures |s| == 31 && forall p: Province :: Scored(p, scores[p]) in s
    ensures forall x | x in s :: x.score == scores[x.item]
  {
    var s := seq(31, (i: nat) requires i < 31 => Scored(i as Province, scores[i]));
    assert forall p: Province :: s[p] == Scored(p, scores[p]);
    s
  }

  /** `np.argsort(scores)[-top_count:][::-1]` */
  function TopProvinces(scores: ProvinceScores, topk: int): (top: seq<Province>)
    ensures |top| == if topk < 1 then 1 else if topk > 31 then 31 else topk
  {
    var count := if topk < 1 then 1 else if topk > 31 then 31 else topk;
    var best := Best(ProvinceList(scores), count);
    seq(count, (i: nat) requires i < count => best[i].item)
  }

  lemma TopProvincesHold(scores: ProvinceScores, topk: int, q: Province)
    ensures var top := TopProvinces(scores, topk);
            Scored(q, scores[q]) in Best(ProvinceList(scores), |top|) ==> q in top
  {
    var top := TopProvinces(scores, topk);
    var best := Best(ProvinceList(scores), |top|);
    if Scored(q, scores[q]) in best {
      var j :| 0 <= j < |top| && best[j] == Scored(q, scores[q]);
      assert top[j] == q;
    }
  }

  /** No province left out scores higher than one taken. */
  lemma TopProvincesAreBest(scores: ProvinceScores, topk: int, p: Province, q: Province)
    requires p in TopProvinces(scores, topk) && q !in TopProvinces(scores, topk)
    ensures scores[p] >= scores[q]
  {
    var top := TopProvinces(scores, topk);
    var best := Best(ProvinceList(scores), |top|);
    BestOnes(ProvinceList(scores), |top|);
    var i :| 0 <= i < |top| && top[i] == p;
    assert best[i] in best && best[i].item == p;
    TopProvincesHold(scores, topk, q);
  }

  lemma ProvinceIsPrefix(p: Class, g: Grammar)
    ensures IsProvince(p) <==> IsValidPrefix([p], g)
  {
    assert [p][0] == p;
  }

  /** An attempt is what the search under its province answers, ranked with that province's score; the
      unforced one with the score of the province it happens to show. */
  ghost predicate AttemptOk(n: Net, g: Grammar, o: Options, a: Attempt) {
    && Fair(n, g, a.answer) && Searched(n, g, o, if a.province.Some? then [a.province.value] else [], a.answer)
    && a.score == ProvinceScore(n, if a.province.Some? then a.province else ProvinceOf(TextOf(a.answer)))
    && a.combined == Combined(n, ProbOf(a.answer), a.score, o.weight)
    && (a.province.Some? && TextOf(a.answer) != [] ==> TextOf(a.answer)[0] == a.province.value)
  }

  /** The unforced decode. */
  method Baseline(n: Net, g: Grammar, o: Options) returns (a: Attempt)
    ensures AttemptOk(n, g, o, a) && a.province == None
  {
    hide Found, Optimal, Untruncated;
    var r, path, trace := Decode(ProblemOf(n, g, []), o.width, o.topk);
    ForcedIsFair(n, g, [], r, path);
    assert SearchedBy(n, g, o, [], r, path, trace);
    var score := ProvinceScore(n, ProvinceOf(TextOf(r)));
    a := Attempt(None, r, score, Combined(n, ProbOf(r), score, o.weight));
  }

  method Forced(n: Net, g: Grammar, o: Options, p: Class) returns (a: Attempt)
    ensures AttemptOk(n, g, o, a) && a.province == Some(p)
  {
    hide Found, Optimal, Untruncated;
    var r, path, trace := Decode(ProblemOf(n, g, [p]), o.width, o.topk);
    ForcedIsFair(n, g, [p], r, path);
    assert SearchedBy(n, g, o, [p], r, path, trace);
    var score := ProvinceScore(n, Some(p));
    a := Attempt(Some(p), r, score, Combined(n, ProbOf(r), score, o.weight));
  }

  /** An attempt worth comparing: the unforced one, or a forced one that found some text. */
  predicate Ranked(a: Attempt) { a.province.None? || a.answer.Answer? }

  /** Attempt `i` is the first best-ranked one. */
  ghost predicate Wins(tried: seq<Attempt>, i: nat) {
    && i < |tried| && Ranked(tried[i])
    && forall j | 0 <= j < |tried| && Ranked(tried[j]) ::
         tried[j].combined <= tried[i].combined && (j < i ==> tried[j].combined < tried[i].combined)
  }

  /** The decodes made: the unforced one, then one for each likely province but the one it shows. */
  function TrialList(base: Option<Class>, top: seq<Province>): (list: seq<Option<Class>>)
    ensures |list| >= 1 && list[0] == None
  {
    if top == [] then [None]
    else
      var p := top[|top| - 1];
      TrialList(base, top[..|top| - 1]) + if base == Some(p) then [] else [Some(p)]
  }

  ghost predicate MadeFor(n: Net, g: Grammar, o: Options, tried: seq<Attempt>, list: seq<Option<Class>>) {
    |tried| == |list| && forall i | 0 <= i < |tried| :: AttemptOk(n, g, o, tried[i]) && tried[i].province == list[i]
  }

  /** The outcome of `province_aware_ctc_decode_one`: with a locked province the decode under it, else
      the first best-ranked of the unforced decode and those for the other likely provinces. */
  ghost predicate Trial(n: Net, g: Grammar, o: Options, locked: Option<Class>, best: Attempt, tried: seq<Attempt>) {
    if locked.Some? then AttemptOk(n, g, o, best) && best.province == locked
    else
      && tried != []
      && MadeFor(n, g, o, tried,
           TrialList(ProvinceOf(TextOf(tried[0].answer)), TopProvinces(n.province, o.provinceTopk)))
      && exists i: nat :: Wins(tried, i) && tried[i] == best
  }

  lemma OneMoreTried(n: Net, g: Grammar, o: Options, tried: seq<Attempt>, a: Attempt, list: seq<Option<Class>>)
    requires MadeFor(n, g, o, tried, list) && AttemptOk(n, g, o, a)
    ensures MadeFor(n, g, o, tried + [a], list + [a.province])
  {
    hide AttemptOk;
  }

  lemma WinnerKept(tried: seq<Attempt>, i: nat, a: Attempt)
    requires Wins(tried, i)
    ensures !Ranked(a) || a.combined <= tried[i].combined ==> Wins(tried + [a], i)
    ensures Ranked(a) && a.combined > tried[i].combined ==> Wins(tried + [a], |tried|)
  {
  }

  /** `province_aware_ctc_decode_one` */
  method ProvinceAware(n: Net, g: Grammar, o: Options, locked: Option<Class>)
    returns (best: Attempt, ghost tried: seq<Attempt>)
    ensures AttemptOk(n, g, o, best) && Trial(n, g, o, locked, best, tried)
  {
    hide AttemptOk, TopProvinces, Wins;
    if locked.Some? {
      best := Forced(n, g, o, locked.value);
      return best, [best];
    }
    best := Baseline(n, g, o);
    tried := [best];
    ghost var at: nat := 0;
    FirstWins(best);
    var base := ProvinceOf(TextOf(best.answer));
    var top := TopProvinces(n.province, o.provinceTopk);
    var i := 0;
    while i < |top|
      invariant i <= |top| && MadeFor(n, g, o, tried, TrialList(base, top[..i]))
      invariant Wins(tried, at) && at < |tried| && tried[at] == best
      invariant base == ProvinceOf(TextOf(tried[0].answer))
    {
      var p := top[i];
      assert top[..i + 1] == top[..i] + [p] && top[..i + 1][..i] == top[..i];
      ProvinceIsPrefix(p, g);
      i := i + 1;
      if base == Some(p) || !IsValidPrefix([p], g) {
        continue;
      }
      var a := Forced(n, g, o, p);
      OneMoreTried(n, g, o, tried, a, TrialList(base, top[..i - 1]));
      WinnerKept(tried, at, a);
      tried := tried + [a];
      if !a.answer.Answer? {
        continue;
      }
      if a.combined > best.combined {
        best, at := a, |tried| - 1;
      }
    }
    assert top[..i] == top;
  }

  lemma FirstWins(a: Attempt)
    requires a.province.None?
    ensures Wins([a], 0)
  {
  }
}
