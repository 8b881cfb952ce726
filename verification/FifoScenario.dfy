/** The FIFO in the concrete runs: from reset to a frame under way, edge by edge. */
module FifoScenario {
  import opened Words
  import opened Runs
  import opened DmaEngine
  import opened DmaInvariant
  import opened DmaHistory
  import opened DmaFifo
  import opened DmaScenario
  import opened DmaExamples

  // ---------------------------------------------------------------- up to the first frame

  /** Edges at which the pixel side completes no word. */
  function Dry(ins: seq<In>): seq<StreamIn> {
    if ins == [] then [] else [StreamIn(ins[0], [])] + Dry(ins[1..])
  }

  lemma {:induction false} NonePushed(ins: seq<In>)
    ensures forall x | x in Dry(ins) :: x.pushed == []
  {
    if ins != [] {
      NonePushed(ins[1..]);
    }
  }

  predicate Unused(f: Stream) { f.unread == [] && f.word == NO_WORD && f.hold <= 2 }

  lemma DryStep(f: Stream, i: In)
    requires Unused(f) && CalmEdge(f.c, i)
    ensures var (x, g) := (StreamIn(i, []), NextStream(f, StreamIn(i, [])));
            UncutEdge(f, x) && FedEdge(f, x) && Unused(g) && g.c == Next(f.c, i)
  {
    assert Pins(f, StreamIn(i, [])) == i;
    hide Next, Legal, RcRises;
  }

  lemma {:induction false} DryRun(f: Stream, ins: seq<In>)
    requires Unused(f) && Always(Next, f.c, ins, CalmEdge)
    ensures Always(NextStream, f, Dry(ins), UncutEdge) && Always(NextStream, f, Dry(ins), FedEdge)
    ensures Unused(RunFrom(NextStream, f, Dry(ins)))
    ensures RunFrom(NextStream, f, Dry(ins)).c == RunFrom(Next, f.c, ins)
    decreases |ins|
  {
    if ins != [] {
      DryStep(f, ins[0]);
      hide NextStream, UncutEdge, FedEdge, CalmEdge, Unused, Next;
      DryRun(NextStream(f, StreamIn(ins[0], [])), ins[1..]);
      assert Dry(ins)[1..] == Dry(ins[1..]);
    }
  }

  /** At most one word a cycle comes out of the pixel side. */
  predicate OneByOne(xs: seq<StreamIn>) { forall x | x in xs :: |x.pushed| <= 1 }

  /** The FIFO behind a configuration reached without it. */
  lemma WithFifo(c: Config) returns (xs: seq<StreamIn>, f: Stream)
    requires Reached(c)
    ensures Always(NextStream, StreamStart(NO_WORD), xs, UncutEdge)
    ensures Always(NextStream, StreamStart(NO_WORD), xs, FedEdge)
    ensures RunFrom(NextStream, StreamStart(NO_WORD), xs) == f
    ensures f.c == c && StreamOk(f) && Unused(f) && OneByOne(xs)
  {
    var ins :| Always(Next, START_CONFIG, ins, CalmEdge) && After(START_CONFIG, ins) == c;
    xs := Dry(ins);
    NonePushed(ins);
    f := RunFrom(NextStream, StreamStart(NO_WORD), xs);
    assert Unused(StreamStart(NO_WORD)) && StreamStart(NO_WORD).c == START_CONFIG;
    hide NextStream, UncutEdge, FedEdge, CalmEdge, Next, StreamOk, Unused, StreamStart;
    DryRun(StreamStart(NO_WORD), ins);
    StreamRun(NO_WORD, xs);
  }

  // ---------------------------------------------------------------- one edge

  /** `a` of the words have been read, `b` have gone in. */
  predicate Queue(f: Stream, words: seq<Quad>, a: nat, b: nat) {
    && a <= b <= |words| && f.hold == 0 && !f.emptyRead && f.c.h.frame == []
    && f.unread == words[a..b] && f.popped == words[..a] && (a > 0 ==> f.word == words[a - 1])
  }

  predicate StreamMoves(f: Stream, x: StreamIn, g: Stream) {
    && g.c.h == NextHistory(f.c.s, f.c.h, Pins(f, x)) && g.c.s.inb == NextInbound(f.c.s, Pins(f, x))
    && EngineEdge(f.c.s, Pins(f, x), g.c.s)
    && g.unread == NextStream(f, x).unread && g.word == NextStream(f, x).word && g.popped == NextStream(f, x).popped
    && g.hold == NextStream(f, x).hold && g.emptyRead == NextStream(f, x).emptyRead
    && g.astray == NextStream(f, x).astray
  }

  /** Link up, DMA enabled, no beat arriving. */
  function Tick(ready: bool, pushed: seq<Quad>): StreamIn { StreamIn(FLOW.(tready := ready), pushed) }

  /** `xs` is an uncut run from reset to `f`, with no command on its way; `fed` that TREADY was high
      whenever needed. */
  predicate RunTo(xs: seq<StreamIn>, f: Stream, fed: bool) {
    && Always(NextStream, StreamStart(NO_WORD), xs, UncutEdge) && RunFrom(NextStream, StreamStart(NO_WORD), xs) == f
    && (fed ==> Always(NextStream, StreamStart(NO_WORD), xs, FedEdge))
    && OneByOne(xs) && Quiet(f.c.s)
  }

  lemma QuietThere(xs: seq<StreamIn>, f: Stream, fed: bool)
    requires RunTo(xs, f, fed)
    ensures Quiet(f.c.s)
  {
  }

  lemma Moves(f: Stream, ready: bool, pushed: seq<Quad>, g: Stream)
    requires Quiet(f.c.s) && g == NextStream(f, Tick(ready, pushed))
    ensures UncutEdge(f, Tick(ready, pushed)) && StreamMoves(f, Tick(ready, pushed), g) && Quiet(g.c.s)
    ensures ready ==> FedEdge(f, Tick(ready, pushed))
  {
    var i := Pins(f, Tick(ready, pushed));
    NoCommandIsLegal(f.c.s, i);
    assert g.c.s == Step(f.c.s, i);
    hide Legal, NextHost, NextXfer, NextOut, NextCpl, NextMwr, NextFault, NextStatus, NextHistory;
  }

  lemma RunsOn(xs: seq<StreamIn>, f: Stream, fed: bool, x: StreamIn, still: bool)
    requires RunTo(xs, f, fed) && UncutEdge(f, x) && |x.pushed| <= 1 && Quiet(NextStream(f, x).c.s)
    requires still ==> fed && FedEdge(f, x)
    ensures RunTo(xs + [x], NextStream(f, x), still)
  {
    hide NextStream, UncutEdge, FedEdge, StreamStart, Quiet;
    Snoc(NextStream, StreamStart(NO_WORD), xs, x, UncutEdge);
    if still {
      Snoc(NextStream, StreamStart(NO_WORD), xs, x, FedEdge);
    }
  }

  lemma Ticks(xs: seq<StreamIn>, f: Stream, fed: bool, ready: bool, pushed: seq<Quad>)
    returns (more: seq<StreamIn>, g: Stream)
    requires RunTo(xs, f, fed) && |pushed| <= 1
    ensures RunTo(more, g, fed && ready) && StreamMoves(f, Tick(ready, pushed), g)
    ensures g == NextStream(f, Tick(ready, pushed))
  {
    hide RunTo, NextStream, UncutEdge, FedEdge, StreamMoves, Quiet;
    var x := Tick(ready, pushed);
    more, g := xs + [x], NextStream(f, x);
    QuietThere(xs, f, fed);
    Moves(f, ready, pushed, g);
    RunsOn(xs, f, fed, x, fed && ready);
  }

  lemma QueueStep(f: Stream, x: StreamIn, g: Stream, words: seq<Quad>, a: nat, b: nat)
    requires Queue(f, words, a, b) && StreamMoves(f, x, g) && x.i.rstn && x.i.linkUp && f.c.s.xfer.rc
    requires !MwrTlast(f.c.s, Pins(f, x)) && (f.c.s.out.rdEn ==> a < b)
    requires x.pushed == [] || (b < |words| && x.pushed == [words[b]])
    ensures Queue(g, words, if f.c.s.out.rdEn then a + 1 else a, b + |x.pushed|)
  {
    hide NextInbound, NextHost, NextXfer, NextCpl, NextOut, NextMwr, Step, MwrTlast, Loads, InPlace;
  }

  /** The FIFO is unused and `n` edges from being written; `vs` and `fram` are what the engine shows. */
  predicate Asleep(f: Stream, a: u32, fram: bool, n: nat) {
    && Waiting(f.c.s, StartedAt(a), a, fram, false) && Quiet(f.c.s) && (n > 0 ==> !fram)
    && f.c.s.inb.vs0 == (n == 2) && (n < 2 ==> f.c.s.inb.vs1 || fram)
    && f.hold <= n && f.unread == [] && f.popped == [] && !f.emptyRead && f.c.h.frame == [] && f.c.h.cur == []
  }

  lemma AtRise(f: Stream, a: u32)
    requires FrameFits(a, FRAME_BYTES)
    requires StreamOk(f) && Unused(f) && Poised(f.c, StartedAt(a), a)
    ensures Asleep(f, a, false, 2)
  {
  }

  lemma FifoWakes(f: Stream, a: u32, x: StreamIn, g: Stream)
    requires FrameFits(a, FRAME_BYTES)
    requires x == Tick(true, []) && StreamMoves(f, x, g)
    ensures Asleep(f, a, false, 2) ==> Asleep(g, a, false, 1)
    ensures Asleep(f, a, false, 1) ==> Asleep(g, a, true, 0)
  {
    StartedHost(a);
    if Waiting(f.c.s, StartedAt(a), a, false, false) && Quiet(f.c.s) {
      Waits(f.c.s, StartedAt(a), a, false, Pins(f, x), g.c.s);
    }
    hide NextHost, NextXfer, NextCpl, NextOut, NextMwr;
  }

  /** From reset to a frame under way with a FIFO that has come out of reset and holds nothing. */
  lemma FrameBegun(a: u32) returns (xs: seq<StreamIn>, f: Stream)
    requires FrameFits(a, FRAME_BYTES)
    ensures RunTo(xs, f, true) && Asleep(f, a, true, 0)
  {
    var c := Undisturbed(a);
    var e;
    xs, e := WithFifo(c);
    AtRise(e, a);
    assert RunTo(xs, e, true);
    hide RunTo, Asleep, StreamMoves, Reached, StreamOk, Unused, Poised;
    xs, f := Ticks(xs, e, true, true, []);
    FifoWakes(e, a, Tick(true, []), f);
    e := f;
    xs, f := Ticks(xs, e, true, true, []);
    FifoWakes(e, a, Tick(true, []), f);
  }
}
