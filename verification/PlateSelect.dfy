/** Choosing one reading among the plate types, and correcting its province, in
    infer_rknn_plate.py. */
module PlateSelect {
  import opened PlateGrammar
  import opened Ctc
  import opened Ranking
  import opened BeamSearch
  import opened Solvability
  import opened PlateDecode

  /** One entry of the candidate list. */
  datatype Candidate = Candidate(
    rank: nat, selected: bool, g: Grammar, text: seq<Class>, lengthOk: bool,
    prob: real, provinceScore: Option<real>, answer: Answer, forcedByClassifier: bool)

  // ---------------------------------------------------------------- scoring

  function CountSpecials(text: seq<Class>): nat {
    if text == [] then 0 else CountSpecials(text[..|text| - 1]) + if IsSpecial(text[|text| - 1]) then 1 else 0
  }

  predicate Readable(c: Candidate) { c.text != [] && c.lengthOk }

  /** `candidate_is_plausible` */
  predicate Plausible(c: Candidate) {
    && Readable(c)
    && CountSpecials(c.text) <= 1
    && (c.g.plate !in {Black, Special7, Yellow} ==> CountSpecials(c.text) == 0)
    && (c.g.plate == Yellow ==> forall ch | ch in c.text && IsSpecial(ch) :: ch in {XUE, GUA})
  }

  predicate NamedUnknown(t: PlateType) { t in {Unknown8, Unknown} }

  /** `candidate_selection_score` */
  function SelectionScore(c: Candidate, estimated: PlateType, weight: real): real {
    c.prob - 0.15 * CountSpecials(c.text) as real
    + (if c.provinceScore.Some? then weight * c.provinceScore.value else 0.0)
    + if NamedUnknown(estimated) then 0.0
      else if c.g.plate == estimated then 0.08
      else if c.g.plate == Black then -0.25
      else -0.05
  }

  // ---------------------------------------------------------------- the attempts

  const BLUE := Grammar(Blue, false)
  const GREEN := Grammar(Green, false)
  const TRACTOR := Grammar(Green, true)
  const YELLOW := Grammar(Yellow, false)
  const BLACK := Grammar(Black, false)
  const SPECIAL := Grammar(Special7, false)
  const LONG := Grammar(Unknown8, false)

  const ALL_ATTEMPTS: seq<Grammar> := [BLUE, GREEN, TRACTOR, YELLOW, BLACK, SPECIAL, LONG]

  /** The order of attempts for each estimate. */
  function AttemptOrder(estimated: PlateType): (order: seq<Grammar>)
    ensures Distinct(order) && forall g :: g in order <==>
              g in ALL_ATTEMPTS || (!NamedUnknown(estimated) && g == Grammar(estimated, false))
  {
    match estimated
    case Unknown8 | Unknown | Blue => ALL_ATTEMPTS
    case Green => [GREEN, TRACTOR, BLUE, YELLOW, BLACK, SPECIAL, LONG]
    case Yellow => [YELLOW, BLUE, GREEN, TRACTOR, BLACK, SPECIAL, LONG]
    case Black => [BLACK, BLUE, GREEN, TRACTOR, YELLOW, SPECIAL, LONG]
    case Special7 => [SPECIAL, BLUE, GREEN, TRACTOR, YELLOW, BLACK, LONG]
    case Other(_) => [Grammar(estimated, false)] + ALL_ATTEMPTS
  }

  function Unless(g: Grammar, first: seq<Grammar>): seq<Grammar> { if g in first then [] else [g] }

  /** The first `n` of all attempts without what is in `first`, in order. */
  function Others(n: nat, first: seq<Grammar>): seq<Grammar>
    requires n <= 7
  {
    if n == 0 then [] else Others(n - 1, first) + Unless(ALL_ATTEMPTS[n - 1], first)
  }

  lemma SevenOthers(first: seq<Grammar>)
    ensures Others(7, first) ==
            Unless(BLUE, first) + Unless(GREEN, first) + Unless(TRACTOR, first) + Unless(YELLOW, first)
            + Unless(BLACK, first) + Unless(SPECIAL, first) + Unless(LONG, first)
  {
    hide Unless;
    assert Others(1, first) == Unless(BLUE, first);
    assert Others(3, first) == Others(1, first) + Unless(GREEN, first) + Unless(TRACTOR, first);
    assert Others(5, first) == Others(3, first) + Unless(YELLOW, first) + Unless(BLACK, first);
  }

  lemma OnlyUnless(g: Grammar, x: Grammar)
    ensures Unless(x, [g]) == if x == g then [] else [x]
  {
  }

  lemma OrderFromFirst(estimated: PlateType, first: seq<Grammar>)
    requires !NamedUnknown(estimated)
    requires first == if estimated == Green then [GREEN, TRACTOR] else [Grammar(estimated, false)]
    ensures first + Others(7, first) == AttemptOrder(estimated)
  {
    SevenOthers(first);
    hide Others;
    if estimated != Green {
      var g := Grammar(estimated, false);
      OnlyUnless(g, BLUE);
      OnlyUnless(g, GREEN);
      OnlyUnless(g, TRACTOR);
      OnlyUnless(g, YELLOW);
      OnlyUnless(g, BLACK);
      OnlyUnless(g, SPECIAL);
      OnlyUnless(g, LONG);
      hide Unless;
    }
  }

  lemma {:induction false} NotYetTried(k: nat, n: nat, first: seq<Grammar>)
    requires k <= n < 7
    ensures ALL_ATTEMPTS[n] !in Others(k, first)
  {
    if k > 0 {
      NotYetTried(k - 1, n, first);
    }
  }

  /** The list of attempts, the estimated type first when it is known. */
  method Attempts(estimated: PlateType) returns (attempts: seq<Grammar>)
    ensures attempts == AttemptOrder(estimated)
  {
    if NamedUnknown(estimated) {
      return ALL_ATTEMPTS;
    }
    attempts := [Grammar(estimated, false)];
    if estimated == Green {
      attempts := attempts + [TRACTOR];
    }
    ghost var first := attempts;
    var i := 0;
    while i < |ALL_ATTEMPTS|
      invariant i <= |ALL_ATTEMPTS| && attempts == first + Others(i, first)
    {
      NotYetTried(i, i, first);
      if ALL_ATTEMPTS[i] !in attempts {
        attempts := attempts + [ALL_ATTEMPTS[i]];
      }
      i := i + 1;
    }
    OrderFromFirst(estimated, first);
  }

  // ---------------------------------------------------------------- one candidate per attempt

  /** A candidate reports a real decode of its own grammar, and says truly whether it is whole. */
  ghost predicate CandidateOk(n: Net, c: Candidate, locked: Option<Class>) {
    && Fair(n, c.g, c.answer) && c.text == TextOf(c.answer) && c.prob == ProbOf(c.answer)
    && (c.lengthOk <==> |c.text| == TargetLen(c.g))
    && (locked.Some? && c.text != [] ==> c.text[0] == locked.value)
  }

  ghost predicate AllCandidatesOk(n: Net, cs: seq<Candidate>, locked: Option<Class>) {
    forall c | c in cs :: CandidateOk(n, c, locked)
  }

  /** A candidate is the outcome of the attempt made for its type. */
  ghost predicate Tried(n: Net, o: Options, locked: Option<Class>, c: Candidate) {
    if o.aware then exists best, tried ::
      Trial(n, c.g, o, locked, best, tried) && c.answer == best.answer && c.provinceScore == best.score
    else
      && Searched(n, c.g, o, if locked.Some? then [locked.value] else [], c.answer)
      && c.provinceScore == ProvinceScore(n, ProvinceOf(TextOf(c.answer)))
  }

  ghost predicate AllTried(n: Net, o: Options, locked: Option<Class>, cs: seq<Candidate>) {
    forall c | c in cs :: Tried(n, o, locked, c)
  }

  method Try(n: Net, g: Grammar, o: Options, locked: Option<Class>, rank: nat) returns (c: Candidate)
    ensures Tried(n, o, locked, c)
    ensures CandidateOk(n, c, locked) && c.rank == rank && c.g == g && !c.selected && !c.forcedByClassifier
  {
    var a: Attempt;
    if o.aware {
      ghost var tried;
      a, tried := ProvinceAware(n, g, o, locked);
    } else if locked.Some? {
      a := Forced(n, g, o, locked.value);
      a := a.(score := ProvinceScore(n, ProvinceOf(TextOf(a.answer))));
    } else {
      a := Baseline(n, g, o);
    }
    var text := TextOf(a.answer);
    c := Candidate(rank, false, g, text, |text| == TargetLen(g), ProbOf(a.answer), a.score, a.answer, false);
  }

  /** A readable candidate is a word of its type's grammar. */
  lemma ReadableIsPlate(n: Net, c: Candidate, locked: Option<Class>)
    requires CandidateOk(n, c, locked) && Readable(c)
    ensures IsPlate(c.text, c.g)
  {
    var path :| Sound(ProblemOf(n, c.g, []), c.answer, path);
  }

  lemma {:induction false} OnlySpecialsCount(text: seq<Class>)
    ensures CountSpecials(text) == 0 <==> forall ch | ch in text :: !IsSpecial(ch)
  {
    if text == [] {
    } else {
      var n := |text| - 1;
      OnlySpecialsCount(text[..n]);
      assert text == text[..n] + [text[n]];
    }
  }

  lemma SpecialsOfPlate(w: seq<Class>, g: Grammar)
    requires IsPlate(w, g)
    ensures g.plate !in {Black, Special7, Yellow} && !g.tractor ==> CountSpecials(w) == 0
    ensures g.plate == Yellow ==> forall ch | ch in w && IsSpecial(ch) :: ch in {XUE, GUA}
  {
    OnlySpecialsCount(w);
    hide CountSpecials;
    forall ch | ch in w ensures exists pos | 0 <= pos < |w| :: w[pos] == ch && CharAllowed(ch, pos, g) {
      var pos :| 0 <= pos < |w| && w[pos] == ch;
    }
  }

  /** The grammar has done the rest: a readable candidate is plausible exactly when it has at most
      one special character, or none on a tractor plate. */
  lemma PlausibleExactly(n: Net, c: Candidate, locked: Option<Class>)
    requires CandidateOk(n, c, locked) && Readable(c)
    ensures Plausible(c) <==>
            CountSpecials(c.text) <= if c.g.tractor && c.g.plate !in {Black, Special7, Yellow} then 0 else 1
  {
    ReadableIsPlate(n, c, locked);
    SpecialsOfPlate(c.text, c.g);
    hide CountSpecials, IsPlate, CandidateOk;
  }

  /** Between readings that differ only in type the estimated type leads by 0.13, and by 0.33 over a
      black reading, unless the estimate is unknown; then the type does not matter. */
  lemma EstimatedTypeLeads(c: Candidate, d: Candidate, estimated: PlateType, weight: real)
    requires c.text == d.text && c.prob == d.prob && c.provinceScore == d.provinceScore
    requires c.g.plate == estimated && d.g.plate != estimated
    ensures SelectionScore(c, estimated, weight) - SelectionScore(d, estimated, weight) ==
            if NamedUnknown(estimated) then 0.0 else if d.g.plate == Black then 0.33 else 0.13
  {
    hide CountSpecials;
  }

  // ---------------------------------------------------------------- selection

  /** The three pools, each used only when the one before is empty. */
  datatype Pool = PlausibleOnes | ReadableOnes | AnyText

  predicate Belongs(c: Candidate, pool: Pool) {
    match pool
    case PlausibleOnes => Plausible(c)
    case ReadableOnes => Readable(c)
    case AnyText => c.text != []
  }

  predicate PoolUsed(cs: seq<Candidate>, pool: Pool) { exists c | c in cs :: Belongs(c, pool) }

  /** Whether the selection falls to this pool. */
  predicate FallsTo(cs: seq<Candidate>, pool: Pool) {
    && PoolUsed(cs, pool)
    && (pool != PlausibleOnes ==> !PoolUsed(cs, PlausibleOnes))
    && (pool == AnyText ==> !PoolUsed(cs, ReadableOnes))
  }

  /** Candidate `k` is the first best-scored one of the pool. */
  predicate Leads(cs: seq<Candidate>, k: nat, pool: Pool, estimated: PlateType, weight: real)
    requires k < |cs|
  {
    && Belongs(cs[k], pool)
    && forall j | 0 <= j < |cs| && Belongs(cs[j], pool) ::
         var (mine, best) := (SelectionScore(cs[j], estimated, weight), SelectionScore(cs[k], estimated, weight));
         mine <= best && (j < k ==> mine < best)
  }

  ghost predicate Chosen(cs: seq<Candidate>, k: nat, estimated: PlateType, weight: real): (chosen: bool)
    ensures chosen ==> k < |cs|
  {
    && k < |cs| && exists pool :: FallsTo(cs, pool) && Leads(cs, k, pool, estimated, weight)
  }

  method Members(cs: seq<Candidate>, pool: Pool) returns (idx: seq<nat>)
    ensures forall i | i in idx :: i < |cs| && Belongs(cs[i], pool)
    ensures forall i | 0 <= i < |cs| && Belongs(cs[i], pool) :: i in idx
    ensures forall a, b | 0 <= a < b < |idx| :: idx[a] < idx[b]
    ensures idx == [] <==> !PoolUsed(cs, pool)
  {
    hide Belongs;
    idx := [];
    var i := 0;
    while i < |cs|
      invariant i <= |cs|
      invariant forall j | j in idx :: j < i && Belongs(cs[j], pool)
      invariant forall j | 0 <= j < i && Belongs(cs[j], pool) :: j in idx
      invariant forall a, b | 0 <= a < b < |idx| :: idx[a] < idx[b]
    {
      if Belongs(cs[i], pool) {
        assert forall a | 0 <= a < |idx| :: idx[a] in idx;
        idx := idx + [i];
      }
      i := i + 1;
    }
    if idx != [] {
      assert idx[0] in idx && cs[idx[0]] in cs;
    }
  }

  /** `max(selectable, key=...)` */
  method FirstBest(cs: seq<Candidate>, idx: seq<nat>, estimated: PlateType, weight: real) returns (k: nat)
    requires idx != [] && forall i | i in idx :: i < |cs|
    requires forall a, b | 0 <= a < b < |idx| :: idx[a] < idx[b]
    ensures k in idx
    ensures forall j | j in idx ::
              var (mine, best) := (SelectionScore(cs[j], estimated, weight), SelectionScore(cs[k], estimated, weight));
              mine <= best && (j < k ==> mine < best)
  {
    hide SelectionScore;
    k := idx[0];
    assert forall b | 0 <= b < |idx| :: idx[b] in idx;
    var a := 1;
    while a < |idx|
      invariant 1 <= a <= |idx| && k < |cs| && exists b | 0 <= b < a :: idx[b] == k
      invariant forall b | 0 <= b < a ::
                  var mine := SelectionScore(cs[idx[b]], estimated, weight);
                  var best := SelectionScore(cs[k], estimated, weight);
                  mine <= best && (idx[b] < k ==> mine < best)
    {
      if SelectionScore(cs[idx[a]], estimated, weight) > SelectionScore(cs[k], estimated, weight) {
        k := idx[a];
      }
      a := a + 1;
    }
  }

  method Select(cs: seq<Candidate>, estimated: PlateType, weight: real) returns (r: Option<nat>)
    ensures r.None? <==> forall c | c in cs :: c.text == []
    ensures r.Some? ==> r.value < |cs| && Chosen(cs, r.value, estimated, weight)
  {
    var pool, idx := SelectPool(cs);
    if idx == [] {
      return None;
    }
    hide SelectionScore, Belongs, FallsTo;
    var k := FirstBest(cs, idx, estimated, weight);
    r := Some(k);
    assert Leads(cs, k, pool, estimated, weight) && FallsTo(cs, pool);
  }

  /** `plausible_candidates or valid_candidates or ...` */
  method SelectPool(cs: seq<Candidate>) returns (pool: Pool, idx: seq<nat>)
    ensures idx == [] <==> forall c | c in cs :: c.text == []
    ensures idx != [] ==> FallsTo(cs, pool)
    ensures forall i | i in idx :: i < |cs| && Belongs(cs[i], pool)
    ensures forall i | 0 <= i < |cs| && Belongs(cs[i], pool) :: i in idx
    ensures forall a, b | 0 <= a < b < |idx| :: idx[a] < idx[b]
  {
    pool := PlausibleOnes;
    idx := Members(cs, pool);
    if idx == [] {
      pool := ReadableOnes;
      idx := Members(cs, pool);
      if idx == [] {
        pool := AnyText;
        idx := Members(cs, pool);
      }
    }
    hide CountSpecials;
  }

  /** A candidate without its number and its mark. */
  function Content(c: Candidate): Candidate { c.(rank := 0, selected := false) }

  function Contents(cs: seq<Candidate>): set<Candidate> { set c | c in cs :: Content(c) }

  lemma ContentDecides(c: Candidate, d: Candidate, pool: Pool, estimated: PlateType, weight: real)
    requires Content(c) == Content(d)
    ensures Belongs(c, pool) <==> Belongs(d, pool)
    ensures SelectionScore(c, estimated, weight) == SelectionScore(d, estimated, weight)
  {
    hide CountSpecials;
  }

  lemma Twin(c: Candidate, cs: seq<Candidate>, ds: seq<Candidate>) returns (j: nat)
    requires c in cs && Contents(cs) == Contents(ds)
    ensures j < |ds| && Content(ds[j]) == Content(c)
  {
    assert Content(c) in Contents(cs);
    var d :| d in ds && Content(d) == Content(c);
    j :| 0 <= j < |ds| && ds[j] == d;
  }

  lemma SamePoolUsed(cs: seq<Candidate>, ds: seq<Candidate>, pool: Pool)
    requires Contents(cs) == Contents(ds) && PoolUsed(cs, pool)
    ensures PoolUsed(ds, pool)
  {
    hide Belongs;
    var c :| c in cs && Belongs(c, pool);
    var j := Twin(c, cs, ds);
    ContentDecides(c, ds[j], pool, Blue, 0.0);
  }

  lemma SameFall(cs: seq<Candidate>, ds: seq<Candidate>, pool: Pool)
    requires Contents(cs) == Contents(ds) && FallsTo(cs, pool)
    ensures FallsTo(ds, pool) && forall q | FallsTo(ds, q) :: q == pool
  {
    hide PoolUsed, Contents;
    SamePoolUsed(cs, ds, pool);
    forall q | PoolUsed(ds, q) ensures PoolUsed(cs, q) {
      SamePoolUsed(ds, cs, q);
    }
  }

  /** The order in which types are attempted decides only between candidates of equal score. */
  lemma OrderOnlyBreaksTies(cs: seq<Candidate>, k: nat, ds: seq<Candidate>, m: nat, estimated: PlateType, weight: real)
    requires Contents(cs) == Contents(ds)
    requires Chosen(cs, k, estimated, weight) && Chosen(ds, m, estimated, weight)
    ensures SelectionScore(cs[k], estimated, weight) == SelectionScore(ds[m], estimated, weight)
  {
    var p :| FallsTo(cs, p) && Leads(cs, k, p, estimated, weight);
    var q :| FallsTo(ds, q) && Leads(ds, m, q, estimated, weight);
    SameFall(cs, ds, p);
    hide FallsTo, Belongs, SelectionScore, Content, Contents;
    var j := Twin(cs[k], cs, ds);
    ContentDecides(cs[k], ds[j], p, estimated, weight);
    var i := Twin(ds[m], ds, cs);
    ContentDecides(ds[m], cs[i], p, estimated, weight);
  }

  /** Within one list the choice is determined: among equal scores the earliest attempt wins. */
  lemma ChoiceIsDetermined(cs: seq<Candidate>, k: nat, m: nat, estimated: PlateType, weight: real)
    requires Chosen(cs, k, estimated, weight) && Chosen(cs, m, estimated, weight)
    ensures k == m
  {
    var p :| FallsTo(cs, p) && Leads(cs, k, p, estimated, weight);
    var q :| FallsTo(cs, q) && Leads(cs, m, q, estimated, weight);
    SameFall(cs, cs, p);
    hide FallsTo, Belongs, SelectionScore;
  }

  // ---------------------------------------------------------------- when the order matters

  function ContentList(cs: seq<Candidate>): seq<Candidate> {
    seq(|cs|, (i: nat) requires i < |cs| => Content(cs[i]))
  }

  /** The same candidates, tried in another order. */
  predicate Reordering(cs: seq<Candidate>, ds: seq<Candidate>) {
    multiset(ContentList(cs)) == multiset(ContentList(ds))
  }

  lemma ReorderingKeepsContents(cs: seq<Candidate>, ds: seq<Candidate>)
    requires Reordering(cs, ds)
    ensures Contents(cs) == Contents(ds)
  {
    ListHolds(cs);
    ListHolds(ds);
    hide Content, ContentList, Contents;
    forall x ensures x in Contents(cs) <==> x in Contents(ds) {
      assert x in ContentList(cs) <==> x in multiset(ContentList(cs));
      assert x in ContentList(ds) <==> x in multiset(ContentList(ds));
    }
  }

  lemma ListHolds(cs: seq<Candidate>)
    ensures forall x :: x in ContentList(cs) <==> x in Contents(cs)
  {
    hide Content;
    forall x ensures x in ContentList(cs) <==> x in Contents(cs) {
      if x in ContentList(cs) {
        var i :| 0 <= i < |cs| && ContentList(cs)[i] == x;
        assert cs[i] in cs;
      }
      if x in Contents(cs) {
        var i :| 0 <= i < |cs| && Content(cs[i]) == x;
        assert ContentList(cs)[i] == x;
      }
    }
  }

  /** Another candidate of the pool in use reaches the top score. */
  ghost predicate Rival(cs: seq<Candidate>, k: nat, j: nat, estimated: PlateType, weight: real)
    requires k < |cs|
  {
    && j < |cs| && Content(cs[j]) != Content(cs[k])
    && SelectionScore(cs[j], estimated, weight) == SelectionScore(cs[k], estimated, weight)
    && exists pool :: FallsTo(cs, pool) && Belongs(cs[j], pool)
  }

  /** Candidate `j` first, the others as they were. */
  function Promoted(cs: seq<Candidate>, j: nat): seq<Candidate>
    requires j < |cs|
  {
    [cs[j]] + cs[..j] + cs[j + 1..]
  }

  lemma SameBag<T>(l: seq<T>, j: nat)
    requires j < |l|
    ensures multiset(l) == multiset([l[j]] + l[..j] + l[j + 1..])
  {
    assert l == l[..j] + [l[j]] + l[j + 1..];
  }

  lemma PromotedReorders(cs: seq<Candidate>, j: nat)
    requires j < |cs|
    ensures Reordering(cs, Promoted(cs, j))
  {
    hide Content;
    SameBag(ContentList(cs), j);
    assert ContentList(Promoted(cs, j)) == [Content(cs[j])] + ContentList(cs)[..j] + ContentList(cs)[j + 1..];
  }

  lemma PromotedLeads(cs: seq<Candidate>, k: nat, j: nat, pool: Pool, estimated: PlateType, weight: real)
    requires k < |cs| && j < |cs| && Leads(cs, k, pool, estimated, weight) && Belongs(cs[j], pool)
    requires SelectionScore(cs[j], estimated, weight) == SelectionScore(cs[k], estimated, weight)
    ensures Leads(Promoted(cs, j), 0, pool, estimated, weight)
  {
    hide Belongs, SelectionScore;
    var ds := Promoted(cs, j);
    forall i | 0 <= i < |ds| && Belongs(ds[i], pool)
      ensures SelectionScore(ds[i], estimated, weight) <= SelectionScore(ds[0], estimated, weight)
    {
      assert ds[i] == if i == 0 then cs[j] else if i <= j then cs[i - 1] else cs[i];
    }
  }

  /** A rival put first is chosen. */
  lemma RivalWins(cs: seq<Candidate>, k: nat, j: nat, estimated: PlateType, weight: real)
    requires Chosen(cs, k, estimated, weight) && Rival(cs, k, j, estimated, weight)
    ensures Chosen(Promoted(cs, j), 0, estimated, weight)
  {
    hide Belongs, SelectionScore, Reordering, Contents, Content, Leads, FallsTo, Promoted;
    PromotedReorders(cs, j);
    ReorderingKeepsContents(cs, Promoted(cs, j));
    var p :| FallsTo(cs, p) && Leads(cs, k, p, estimated, weight);
    SameFall(cs, cs, p);
    SameFall(cs, Promoted(cs, j), p);
    PromotedLeads(cs, k, j, p, estimated, weight);
    PromotedLength(cs, j);
  }

  lemma PromotedLength(cs: seq<Candidate>, j: nat)
    requires j < |cs|
    ensures |Promoted(cs, j)| == |cs| && Promoted(cs, j)[0] == cs[j]
  {
  }

  /** Whatever the order, the same candidate is chosen. */
  ghost predicate OrderFree(cs: seq<Candidate>, k: nat, estimated: PlateType, weight: real)
    requires k < |cs|
  {
    forall ds: seq<Candidate>, m: nat | Reordering(cs, ds) && Chosen(ds, m, estimated, weight) ::
      Content(ds[m]) == Content(cs[k])
  }

  lemma NoRivalNoOrder(cs: seq<Candidate>, k: nat, ds: seq<Candidate>, m: nat, estimated: PlateType, weight: real)
    requires Chosen(cs, k, estimated, weight) && Reordering(cs, ds) && Chosen(ds, m, estimated, weight)
    requires forall j: nat :: !Rival(cs, k, j, estimated, weight)
    ensures Content(ds[m]) == Content(cs[k])
  {
    ReorderingKeepsContents(cs, ds);
    OrderOnlyBreaksTies(cs, k, ds, m, estimated, weight);
    var q :| FallsTo(ds, q) && Leads(ds, m, q, estimated, weight);
    SameFall(ds, cs, q);
    hide FallsTo, Belongs, SelectionScore, Reordering, Contents, Content;
    var j := Twin(ds[m], ds, cs);
    ContentDecides(ds[m], cs[j], q, estimated, weight);
    assert !Rival(cs, k, j, estimated, weight);
  }

  /** The order of the attempts is without influence on the result exactly when no other candidate
      of the pool in use has the top score. */
  lemma OrderMattersExactly(cs: seq<Candidate>, k: nat, estimated: PlateType, weight: real)
    requires Chosen(cs, k, estimated, weight)
    ensures OrderFree(cs, k, estimated, weight) <==> forall j: nat :: !Rival(cs, k, j, estimated, weight)
  {
    hide Chosen, Rival, Reordering, Content, SelectionScore, Promoted;
    if j: nat :| Rival(cs, k, j, estimated, weight) {
      RivalWins(cs, k, j, estimated, weight);
      RivalDiffers(cs, k, j, estimated, weight);
      PromotedReorders(cs, j);
      PromotedLength(cs, j);
    } else {
      forall ds: seq<Candidate>, m: nat | Reordering(cs, ds) && Chosen(ds, m, estimated, weight)
        ensures Content(ds[m]) == Content(cs[k])
      {
        NoRivalNoOrder(cs, k, ds, m, estimated, weight);
      }
    }
  }

  lemma RivalDiffers(cs: seq<Candidate>, k: nat, j: nat, estimated: PlateType, weight: real)
    requires k < |cs| && Rival(cs, k, j, estimated, weight)
    ensures j < |cs| && Content(cs[j]) != Content(cs[k])
  {
  }

  /** Seven columns that favour no class. */
  function Flat(): (n: Net)
    ensures |n.lp| == 7
  {
    Net(seq(7, _ => seq(74, _ => 0.0)), seq(31, _ => 0.0), One, Zero)
  }

  function One(x: real): real { 1.0 }

  function Zero(x: real): real { 0.0 }

  /** A seven-character reading without special characters, as a candidate of type `g`. */
  function PlainReading(g: Grammar): Candidate {
    var w := Completed([], 7);
    Candidate(0, false, g, w, true, 1.0, None, Answer(w, 1.0, PathScoreOf(w)), false)
  }

  function PathScoreOf(w: seq<Class>): real {
    if |Spread(w)| <= 7 then PathScore(Flat().lp, Spread(w)) else 0.0
  }

  lemma PlainPlate(g: Grammar)
    requires g in {BLUE, YELLOW}
    ensures var w := Completed([], 7);
            IsPlate(w, g) && |Spread(w)| == 7 && Collapse(Spread(w)) == w && CountSpecials(w) == 0
  {
    var w := Completed([], 7);
    CompletedIsPlate([], g);
    CompletedIsPlate([], BLUE);
    SpecialsOfPlate(w, BLUE);
    SpreadCollapses(w);
    hide Completed, Collapse, CountSpecials;
    assert Spread([]) == [];
  }

  lemma PlainIsOk(g: Grammar)
    requires g in {BLUE, YELLOW}
    ensures CandidateOk(Flat(), PlainReading(g), None) && Plausible(PlainReading(g))
  {
    PlainPlate(g);
    var w := Completed([], 7);
    hide Completed, Spread, Collapse, CountSpecials, PathScore, CharAllowed;
    assert Sound(ProblemOf(Flat(), g, []), PlainReading(g).answer, Spread(w));
  }

  lemma PlainScore()
    ensures SelectionScore(PlainReading(BLUE), Green, 0.0) == SelectionScore(PlainReading(YELLOW), Green, 0.0)
  {
    hide Completed, CountSpecials, PathScoreOf;
  }

  /** A reading that is possible as blue and as yellow, with green estimated: the one tried first is
      chosen. */
  lemma OrderCanDecide() returns (c: Candidate, d: Candidate)
    ensures c.g == BLUE && d.g == YELLOW && CandidateOk(Flat(), c, None) && CandidateOk(Flat(), d, None)
    ensures Reordering([c, d], [d, c])
    ensures Chosen([c, d], 0, Green, 0.0) && Chosen([d, c], 0, Green, 0.0)
  {
    c, d := PlainReading(BLUE), PlainReading(YELLOW);
    PlainIsOk(BLUE);
    PlainIsOk(YELLOW);
    PlainScore();
    hide CandidateOk, Plausible, Chosen, SelectionScore, Reordering;
    FirstOfTwo(c, d);
    FirstOfTwo(d, c);
    assert Promoted([c, d], 1) == [d, c];
    PromotedReorders([c, d], 1);
  }

  lemma FirstOfTwo(c: Candidate, d: Candidate)
    requires Plausible(c) && Plausible(d)
    requires SelectionScore(c, Green, 0.0) == SelectionScore(d, Green, 0.0)
    ensures Chosen([c, d], 0, Green, 0.0)
  {
    hide SelectionScore, Plausible, Readable;
    assert c in [c, d];
    assert FallsTo([c, d], PlausibleOnes) && Leads([c, d], 0, PlausibleOnes, Green, 0.0);
  }

  // ---------------------------------------------------------------- type fallback

  /** What the caller is told. `g` is the chosen type, or the estimated one when there is no text. */
  datatype Reading = Reading(text: seq<Class>, prob: real, answer: Answer, g: Grammar)

  /** Exactly candidate `k` is marked, and it is what is reported. */
  ghost predicate Reports(r: Reading, cs: seq<Candidate>, k: nat) {
    && k < |cs| && (forall i | 0 <= i < |cs| :: cs[i].selected <==> i == k)
    && r == Reading(cs[k].text, cs[k].prob, cs[k].answer, cs[k].g)
  }

  /** A text comes with exactly one marked candidate, its own; no text, with none. */
  ghost predicate Consistent(r: Reading, cs: seq<Candidate>) {
    if r.text != [] then exists k :: Reports(r, cs, k) else forall c | c in cs :: !c.selected
  }

  /** One candidate for each attempt, in the order of the attempts. */
  predicate InAttemptOrder(cs: seq<Candidate>, estimated: PlateType) {
    var order := AttemptOrder(estimated);
    |cs| == |order| && forall i | 0 <= i < |cs| :: cs[i].g == order[i]
  }

  /** One candidate for each attempt, none of them marked. */
  method TryAll(n: Net, estimated: PlateType, o: Options, locked: Option<Class>) returns (cs: seq<Candidate>)
    ensures AllCandidatesOk(n, cs, locked) && AllTried(n, o, locked, cs) && cs != []
    ensures forall i | 0 <= i < |cs| :: cs[i].rank == i && !cs[i].selected && !cs[i].forcedByClassifier
    ensures InAttemptOrder(cs, estimated)
  {
    hide CandidateOk, AttemptOrder, Tried;
    var attempts := Attempts(estimated);
    assert BLUE in ALL_ATTEMPTS;
    cs := [];
    var i := 0;
    while i < |attempts|
      invariant i == |cs| <= |attempts| && AllCandidatesOk(n, cs, locked) && AllTried(n, o, locked, cs)
      invariant forall j | 0 <= j < i ::
                  cs[j].rank == j && !cs[j].selected && !cs[j].forcedByClassifier && cs[j].g == attempts[j]
    {
      var c := Try(n, attempts[i], o, locked, |cs|);
      cs := cs + [c];
      i := i + 1;
    }
  }

  /** What `decode_with_type_fallback` returns: one candidate for each attempt, and the reading of the
      one chosen among them, if any has text. */
  ghost predicate Fallback(n: Net, estimated: PlateType, o: Options, locked: Option<Class>,
      r: Reading, cs: seq<Candidate>)
  {
    && Consistent(r, cs) && AllCandidatesOk(n, cs, locked) && AllTried(n, o, locked, cs)
    && InAttemptOrder(cs, estimated)
    && (r.text == [] <==> forall c | c in cs :: c.text == [])
    && (r.text != [] ==> exists k :: Reports(r, cs, k) && Chosen(cs, k, estimated, o.weight))
    && (r.text != [] && locked.Some? ==> r.text[0] == locked.value)
  }

  /** `decode_with_type_fallback` */
  method DecodeWithTypeFallback(n: Net, estimated: PlateType, o: Options, locked: Option<Class>)
    returns (r: Reading, cs: seq<Candidate>)
    ensures Fallback(n, estimated, o, locked, r, cs)
    ensures forall i | 0 <= i < |cs| :: cs[i].rank == i && !cs[i].forcedByClassifier
  {
    hide CandidateOk, Chosen, AttemptOrder, Tried;
    var tries := TryAll(n, estimated, o, locked);
    var k := Select(tries, estimated, o.weight);
    cs := tries;
    if k.None? {
      return Reading([], 0.0, NoAnswer, Grammar(estimated, false)), cs;
    }
    var best := k.value;
    ChosenHasText(tries, best, estimated, o.weight);
    MarkOne(tries, best, estimated, o.weight);
    cs := tries[best := tries[best].(selected := true)];
    r := Reading(cs[best].text, cs[best].prob, cs[best].answer, cs[best].g);
    MarkedOk(n, o, tries, best, locked);
    assert cs[best] in cs && Reports(r, cs, best);
  }

  lemma MarkedOk(n: Net, o: Options, cs: seq<Candidate>, k: nat, locked: Option<Class>)
    requires AllCandidatesOk(n, cs, locked) && AllTried(n, o, locked, cs) && k < |cs|
    ensures AllCandidatesOk(n, cs[k := cs[k].(selected := true)], locked)
    ensures AllTried(n, o, locked, cs[k := cs[k].(selected := true)])
    ensures locked.Some? && cs[k].text != [] ==> cs[k].text[0] == locked.value
  {
    hide Fair, Searched;
    assert cs[k] in cs;
  }

  /** Marking a candidate changes nothing that selection looks at. */
  lemma MarkOne(cs: seq<Candidate>, k: nat, estimated: PlateType, weight: real)
    requires Chosen(cs, k, estimated, weight)
    ensures Chosen(cs[k := cs[k].(selected := true)], k, estimated, weight)
  {
    hide FallsTo, Belongs, SelectionScore, Contents;
    var ds := cs[k := cs[k].(selected := true)];
    var pool :| FallsTo(cs, pool) && Leads(cs, k, pool, estimated, weight);
    forall j | 0 <= j < |cs|
      ensures Belongs(ds[j], pool) <==> Belongs(cs[j], pool)
      ensures SelectionScore(ds[j], estimated, weight) == SelectionScore(cs[j], estimated, weight)
    {
      ContentDecides(cs[j], ds[j], pool, estimated, weight);
    }
    SameContents(cs, ds);
    SameFall(cs, ds, pool);
    assert Leads(ds, k, pool, estimated, weight);
  }

  lemma SameContents(cs: seq<Candidate>, ds: seq<Candidate>)
    requires |cs| == |ds| && forall j | 0 <= j < |cs| :: Content(cs[j]) == Content(ds[j])
    ensures Contents(cs) == Contents(ds)
  {
    hide Content;
    forall x ensures x in Contents(cs) <==> x in Contents(ds) {
      if x in Contents(cs) {
        var j :| 0 <= j < |cs| && Content(cs[j]) == x;
        assert ds[j] in ds;
      }
      if x in Contents(ds) {
        var j :| 0 <= j < |ds| && Content(ds[j]) == x;
        assert cs[j] in cs;
      }
    }
  }

  lemma ChosenHasText(cs: seq<Candidate>, k: nat, estimated: PlateType, weight: real)
    requires Chosen(cs, k, estimated, weight)
    ensures cs[k].text != []
  {
    hide CountSpecials, SelectionScore, FallsTo;
  }

  // ---------------------------------------------------------------- province correction

  datatype VerifierArgs = VerifierArgs(enabled: bool, agreeTopk: int, minConf: real, minRatio: real)

  datatype Status = Disabled | NoText | Agree | TopkAgree | DisputedLowConf | CorrectionRejected | Corrected

  /** `np.argmax` */
  method ArgMax(scores: ProvinceScores) returns (p: Province)
    ensures forall q: Province :: scores[q] <= scores[p] && (q < p ==> scores[q] < scores[p])
  {
    p := 0;
    var i := 1;
    while i < 31
      invariant 1 <= i <= 31 && p < i
      invariant forall q: Province | q < i :: scores[q] <= scores[p] && (q < p ==> scores[q] < scores[p])
    {
      if scores[i] > scores[p] {
        p := i;
      }
      i := i + 1;
    }
  }

  /** `next((c for c in candidates if c.get("selected")), None)` */
  method FirstSelected(cs: seq<Candidate>) returns (r: Option<Candidate>)
    ensures r.None? <==> forall c | c in cs :: !c.selected
    ensures r.Some? ==> r.value.selected && exists i | 0 <= i < |cs| ::
              cs[i] == r.value && forall j | 0 <= j < i :: !cs[j].selected
  {
    var i := 0;
    while i < |cs|
      invariant i <= |cs| && forall j | 0 <= j < i :: !cs[j].selected
    {
      if cs[i].selected {
        assert cs[i] in cs;
        return Some(cs[i]);
      }
      i := i + 1;
    }
    r := None;
  }

  /** The old candidates unmarked, then the forced ones renumbered behind them. */
  method Replace(was: seq<Candidate>, forced: seq<Candidate>) returns (cs: seq<Candidate>)
    ensures |cs| == |was| + |forced|
    ensures forall i | 0 <= i < |was| :: cs[i] == was[i].(selected := false)
    ensures forall i | 0 <= i < |forced| ::
              cs[|was| + i] == forced[i].(rank := |was| + i, forcedByClassifier := true)
  {
    cs := was;
    var i := 0;
    while i < |was|
      invariant i <= |was| == |cs|
      invariant forall j | 0 <= j < |cs| :: cs[j] == if j < i then was[j].(selected := false) else was[j]
    {
      cs := cs[i := cs[i].(selected := false)];
      i := i + 1;
    }
    i := 0;
    while i < |forced|
      invariant i <= |forced| && |cs| == |was| + i
      invariant forall j | 0 <= j < |was| :: cs[j] == was[j].(selected := false)
      invariant forall j | 0 <= j < i :: cs[|was| + j] == forced[j].(rank := |was| + j, forcedByClassifier := true)
    {
      cs := cs + [forced[i].(rank := |cs|, forcedByClassifier := true)];
      i := i + 1;
    }
  }

  lemma ReplaceConsistent(n: Net, was: seq<Candidate>, forced: seq<Candidate>, cs: seq<Candidate>, r: Reading,
      locked: Option<Class>)
    requires |cs| == |was| + |forced| && r.text != [] && Consistent(r, forced)
    requires AllCandidatesOk(n, was, None) && AllCandidatesOk(n, forced, locked)
    requires forall i | 0 <= i < |was| :: cs[i] == was[i].(selected := false)
    requires forall i | 0 <= i < |forced| :: cs[|was| + i] == forced[i].(rank := |was| + i, forcedByClassifier := true)
    ensures Consistent(r, cs) && AllCandidatesOk(n, cs, None)
  {
    hide Fair;
    var k :| Reports(r, forced, k);
    forall i | 0 <= i < |cs| ensures cs[i].selected <==> i == |was| + k {
      if i >= |was| {
        assert cs[|was| + (i - |was|)].selected <==> forced[i - |was|].selected;
      }
    }
    assert Reports(r, cs, |was| + k);
    forall c | c in cs ensures CandidateOk(n, c, None) {
      var i :| 0 <= i < |cs| && cs[i] == c;
      if i < |was| {
        assert CandidateOk(n, was[i], None);
      } else {
        assert cs[|was| + (i - |was|)] == c && CandidateOk(n, forced[i - |was|], locked);
      }
    }
  }

  /** When the classifier may overrule: it is sure enough, and disagrees beyond its top list. */
  predicate Overrules(a: VerifierArgs, probs: ProvinceScores, top: Province, text: seq<Class>) {
    && ProvinceOf(text) != Some(top)
    && (ProvinceOf(text).Some? ==> ProvinceOf(text).value !in TopProvinces(probs, a.agreeTopk))
    && probs[top] >= a.minConf
  }

  /** What the classifier's province says of the text before any second decode; `None` lets it try. */
  function FirstVerdict(a: VerifierArgs, probs: ProvinceScores, top: Province, text: seq<Class>): (v: Option<Status>)
    ensures v.None? <==> text != [] && Overrules(a, probs, top, text)
  {
    var shown := ProvinceOf(text);
    if text == [] then Some(NoText)
    else if shown == Some(top) then Some(Agree)
    else if shown.Some? && shown.value in TopProvinces(probs, a.agreeTopk) then Some(TopkAgree)
    else if probs[top] < a.minConf then Some(DisputedLowConf)
    else None
  }

  /** The forced decode deserves to replace `was`: a whole plate of nearly the same probability. */
  predicate Convinces(a: VerifierArgs, forced: Reading, was: Reading) {
    forced.text != [] && IsPlate(forced.text, forced.g) && forced.prob >= was.prob * a.minRatio
  }

  /** `verify_or_correct_province`, from the classifier's probabilities on. `forced` is the decode under
      the classifier's province, made when the classifier may overrule. */
  method VerifyOrCorrect(n: Net, probs: Option<ProvinceScores>, a: VerifierArgs, o: Options, estimated: PlateType,
      was: Reading, wasCs: seq<Candidate>)
    returns (r: Reading, cs: seq<Candidate>, status: Status, top: Province,
      ghost forced: Reading, ghost forcedCs: seq<Candidate>)
    requires Consistent(was, wasCs) && AllCandidatesOk(n, wasCs, None)
    ensures Consistent(r, cs) && AllCandidatesOk(n, cs, None)
    ensures status == Disabled <==> probs.None? || !a.enabled
    ensures status != Disabled ==>
              forall q: Province ::
                probs.value[q] <= probs.value[top] && (q < top ==> probs.value[q] < probs.value[top])
    ensures status != Disabled ==>
              var first := FirstVerdict(a, probs.value, top, was.text);
              if first.Some? then status == first.value else status in {Corrected, CorrectionRejected}
    ensures status in {Corrected, CorrectionRejected} <==>
              probs.Some? && a.enabled && was.text != [] && Overrules(a, probs.value, top, was.text)
    ensures status in {Corrected, CorrectionRejected} ==>
              && Fallback(n, estimated, o, Some(top), forced, forcedCs)
              && (status == Corrected <==> Convinces(a, forced, was))
    ensures status != Corrected ==> r == was && cs == wasCs
    ensures status == Corrected ==>
              && r == forced && r.text[0] == top && |cs| == |wasCs| + |forcedCs|
              && (forall i | 0 <= i < |wasCs| :: cs[i] == wasCs[i].(selected := false))
              && forall i | 0 <= i < |forcedCs| ::
                   cs[|wasCs| + i] == forcedCs[i].(rank := |wasCs| + i, forcedByClassifier := true)
  {
    hide CandidateOk, TopProvinces, AttemptOrder, Tried, Chosen;
    r, cs, status, top := was, wasCs, Disabled, 0;
    forced, forcedCs := was, wasCs;
    if probs.None? || !a.enabled {
      return;
    }
    top := ArgMax(probs.value);
    var current := ProvinceOf(was.text);
    if was.text == [] {
      status := NoText;
      return;
    }
    if current == Some(top) {
      status := Agree;
      return;
    }
    if current.Some? && current.value in TopProvinces(probs.value, a.agreeTopk) {
      status := TopkAgree;
      return;
    }
    if probs.value[top] < a.minConf {
      status := DisputedLowConf;
      return;
    }
    var reading, found := DecodeWithTypeFallback(n, estimated, o, Some(top));
    forced, forcedCs := reading, found;
    var marked := FirstSelected(found);
    if reading.text != [] {
      MarkedIsThere(n, reading, found, marked, Some(top));
    }
    if reading.text != [] && marked.Some? && marked.value.lengthOk && reading.prob >= was.prob * a.minRatio {
      var joined := Replace(wasCs, found);
      ReplaceConsistent(n, wasCs, found, joined, reading, Some(top));
      r, cs, status := reading, joined, Corrected;
    } else {
      status := CorrectionRejected;
    }
  }

  /** The first marked candidate of a reading with text is the one it reports. */
  lemma MarkedIsThere(n: Net, r: Reading, cs: seq<Candidate>, marked: Option<Candidate>, locked: Option<Class>)
    requires Consistent(r, cs) && AllCandidatesOk(n, cs, locked) && r.text != []
    requires marked.None? <==> forall c | c in cs :: !c.selected
    requires marked.Some? ==> marked.value.selected && marked.value in cs
    ensures marked.Some? && (marked.value.lengthOk <==> IsPlate(r.text, r.g))
  {
    hide CandidateOk, IsPlate;
    var k: nat :| Reports(r, cs, k);
    assert cs[k] in cs;
    MarkedIsReported(n, r, cs, marked.value, locked);
  }

  lemma MarkedIsReported(n: Net, r: Reading, cs: seq<Candidate>, c: Candidate, locked: Option<Class>)
    requires Consistent(r, cs) && AllCandidatesOk(n, cs, locked) && r.text != [] && c in cs && c.selected
    ensures r == Reading(c.text, c.prob, c.answer, c.g) && CandidateOk(n, c, locked)
    ensures c.lengthOk <==> IsPlate(r.text, r.g)
  {
    hide Fair;
    var k :| Reports(r, cs, k);
    var i :| 0 <= i < |cs| && cs[i] == c;
    if c.lengthOk {
      ReadableIsPlate(n, c, locked);
    }
  }

  /** The base validity of a reading: exactly the plates of the selected type's grammar. */
  method BaseValid(n: Net, r: Reading, cs: seq<Candidate>) returns (valid: bool)
    requires Consistent(r, cs) && AllCandidatesOk(n, cs, None)
    ensures valid <==> IsPlate(r.text, r.g)
  {
    hide CandidateOk;
    var marked := FirstSelected(cs);
    valid := r.text != [] && marked.Some? && marked.value.lengthOk;
    if r.text != [] {
      MarkedIsThere(n, r, cs, marked, None);
    }
  }
}
