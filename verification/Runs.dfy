/** Runs of a deterministic machine under an arbitrary input sequence. */
module Runs {

  function RunFrom<C, I>(next: (C, I) -> C, c: C, ins: seq<I>): C
    decreases |ins|
  {
    if ins == [] then c else RunFrom(next, next(c, ins[0]), ins[1..])
  }

  /** `p` holds at every step of the run. */
  predicate Always<C, I>(next: (C, I) -> C, c: C, ins: seq<I>, p: (C, I) -> bool)
    decreases |ins|
  {
    ins == [] || (p(c, ins[0]) && Always(next, next(c, ins[0]), ins[1..], p))
  }

  /** Induction over runs: what every `p`-step keeps holds at the end. */
  lemma {:induction false} Keeps<C(!new), I(!new)>(
      next: (C, I) -> C, inv: C -> bool, p: (C, I) -> bool, c: C, ins: seq<I>)
    requires inv(c) && Always(next, c, ins, p)
    requires forall d, i | inv(d) && p(d, i) :: inv(next(d, i))
    ensures inv(RunFrom(next, c, ins))
    decreases |ins|
  {
    if ins != [] {
      Keeps(next, inv, p, next(c, ins[0]), ins[1..]);
    }
  }

  /** A property that does not hold at every step fails at some step. */
  lemma {:induction false} FailsSomewhere<C, I>(
      next: (C, I) -> C, c: C, ins: seq<I>, p: (C, I) -> bool) returns (k: nat)
    requires !Always(next, c, ins, p)
    ensures k < |ins| && !p(RunFrom(next, c, ins[..k]), ins[k])
    decreases |ins|
  {
    k := 0;
    if p(c, ins[0]) {
      k := FailsSomewhere(next, next(c, ins[0]), ins[1..], p);
      assert ins[..k + 1][1..] == ins[1..][..k];
      k := k + 1;
    }
  }

  lemma {:induction false} AlwaysWeaker<C(!new), I(!new)>(
      next: (C, I) -> C, c: C, ins: seq<I>, p: (C, I) -> bool, q: (C, I) -> bool)
    requires Always(next, c, ins, p) && forall d, i | p(d, i) :: q(d, i)
    ensures Always(next, c, ins, q)
    decreases |ins|
  {
    if ins != [] {
      AlwaysWeaker(next, next(c, ins[0]), ins[1..], p, q);
    }
  }

  /** One more step at the end. */
  lemma {:induction false} Snoc<C, I>(next: (C, I) -> C, c: C, ins: seq<I>, i: I, p: (C, I) -> bool)
    requires Always(next, c, ins, p) && p(RunFrom(next, c, ins), i)
    ensures Always(next, c, ins + [i], p)
    ensures RunFrom(next, c, ins + [i]) == next(RunFrom(next, c, ins), i)
    decreases |ins|
  {
    if ins != [] {
      assert (ins + [i])[1..] == ins[1..] + [i];
      Snoc(next, next(c, ins[0]), ins[1..], i, p);
    }
  }

  /** Two runs one after the other. */
  lemma {:induction false} Concat<C, I>(next: (C, I) -> C, c: C, a: seq<I>, b: seq<I>, p: (C, I) -> bool)
    requires Always(next, c, a, p) && Always(next, RunFrom(next, c, a), b, p)
    ensures Always(next, c, a + b, p)
    ensures RunFrom(next, c, a + b) == RunFrom(next, RunFrom(next, c, a), b)
    decreases |a|
  {
    if a == [] {
      assert a + b == b;
    } else {
      assert (a + b)[1..] == a[1..] + b;
      Concat(next, next(c, a[0]), a[1..], b, p);
    }
  }
}
