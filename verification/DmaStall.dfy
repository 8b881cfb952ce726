/** A stall at which a payload goes wrong: TREADY low for one cycle as the first HEADER state is
    entered. The header is accepted twice and the payload starts one FIFO word late. */
module DmaStall {
  import opened Words
  import opened Runs
  import opened DmaEngine
  import opened DmaInvariant
  import opened DmaHistory
  import opened DmaFifo
  import opened DmaScenario
  import opened FifoScenario

  /** What is accepted: the header twice, then the words 1 to 4 where 0 to 3 are due. */
  function StalledBeats(a: u32, words: seq<Quad>): (beats: seq<OutBeat>)
    requires |words| == 6
    ensures |beats| == 6
  {
    [HeaderBeat(a), HeaderBeat(a),
     OutBeat(Payload(SwabQuad(words[1])), false), OutBeat(Payload(SwabQuad(words[2])), false),
     OutBeat(Payload(SwabQuad(words[3])), false), OutBeat(Payload(SwabQuad(words[4])), true)]
  }

  /** Before the TLP, with `b` words in the FIFO. */
  predicate Filling(f: Stream, a: u32, words: seq<Quad>, dmaStart: bool, b: nat) {
    Waiting(f.c.s, StartedAt(a), a, true, dmaStart) && f.c.h.cur == [] && Queue(f, words, 0, b)
  }

  /** In the HEADER state after `n` cycles of it. */
  predicate Heading(f: Stream, a: u32, words: seq<Quad>, n: nat) {
    && n <= 1 && AtHeader(f.c.s, StartedAt(a), a, n == 1) && f.c.h.cur == [] && Queue(f, words, n, 6)
    && (n == 1 ==> f.c.h.stalled)
  }

  /** In the DATA state with `k` beats loaded. */
  predicate Loading(f: Stream, a: u32, words: seq<Quad>, k: nat) {
    && |words| == 6 && AtData(f.c.s, StartedAt(a), a, k) && Queue(f, words, k + 2, 6) && f.c.h.stalled
    && f.c.h.cur == StalledBeats(a, words)[..k + 1]
    && OutBeat(f.c.s.out.tdata, f.c.s.out.tlast) == StalledBeats(a, words)[k + 1]
    && (k > 0 ==> f.astray)
  }

  lemma FillStep(f: Stream, a: u32, words: seq<Quad>, b: nat, g: Stream)
    requires FrameFits(a, FRAME_BYTES)
    requires |words| == 6 && b < 6 && Filling(f, a, words, false, b) && Quiet(f.c.s)
    requires StreamMoves(f, Tick(true, [words[b]]), g)
    ensures Filling(g, a, words, b == 5, b + 1)
  {
    var x := Tick(true, [words[b]]);
    StartedHost(a);
    Waits(f.c.s, StartedAt(a), a, true, Pins(f, x), g.c.s);
    QueueStep(f, x, g, words, 0, b);
    hide NextHost, NextXfer, NextCpl, NextOut, Waiting, Queue;
  }

  lemma BeginStep(f: Stream, a: u32, words: seq<Quad>, g: Stream)
    requires FrameFits(a, FRAME_BYTES)
    requires |words| == 6 && Filling(f, a, words, true, 6) && Quiet(f.c.s) && StreamMoves(f, Tick(true, []), g)
    ensures Heading(g, a, words, 0)
  {
    var x := Tick(true, []);
    StartedHost(a);
    Begins(f.c.s, StartedAt(a), a, Pins(f, x), g.c.s);
    QueueStep(f, x, g, words, 0, 6);
    hide NextHost, NextXfer, NextCpl, NextOut, Queue;
  }

  lemma StallStep(f: Stream, a: u32, words: seq<Quad>, g: Stream)
    requires FrameFits(a, FRAME_BYTES)
    requires |words| == 6 && Heading(f, a, words, 0) && Quiet(f.c.s) && StreamMoves(f, Tick(false, []), g)
    ensures Heading(g, a, words, 1)
  {
    var x := Tick(false, []);
    StartedHost(a);
    HeaderStalls(f.c.s, StartedAt(a), a, Pins(f, x), g.c.s);
    QueueStep(f, x, g, words, 0, 6);
    hide NextHost, NextXfer, NextCpl, NextOut, Queue;
  }

  lemma HeadStep(f: Stream, a: u32, words: seq<Quad>, g: Stream)
    requires FrameFits(a, FRAME_BYTES)
    requires |words| == 6 && Heading(f, a, words, 1) && Quiet(f.c.s) && StreamMoves(f, Tick(true, []), g)
    ensures Loading(g, a, words, 0)
  {
    var x := Tick(true, []);
    StartedHost(a);
    HeaderGoes(f.c.s, StartedAt(a), a, true, Pins(f, x), g.c.s);
    QueueStep(f, x, g, words, 1, 6);
    hide NextHost, NextXfer, NextCpl, NextOut, Queue;
  }

  lemma BeatStep(f: Stream, a: u32, words: seq<Quad>, k: nat, g: Stream)
    requires FrameFits(a, FRAME_BYTES)
    requires k < 4 && Loading(f, a, words, k) && Quiet(f.c.s) && StreamMoves(f, Tick(true, []), g)
    ensures Loading(g, a, words, k + 1)
  {
    var x := Tick(true, []);
    StartedHost(a);
    BeatGoes(f.c.s, StartedAt(a), a, k, Pins(f, x), g.c.s);
    QueueStep(f, x, g, words, k + 2, 6);
    hide NextHost, NextXfer, NextCpl, NextOut, SwabQuad;
  }

  lemma LastStep(f: Stream, a: u32, words: seq<Quad>, g: Stream)
    requires FrameFits(a, FRAME_BYTES)
    requires Loading(f, a, words, 4) && Quiet(f.c.s) && StreamMoves(f, Tick(true, []), g)
    ensures Garbled(g, a, words)
  {
    hide SwabQuad;
    assert StalledBeats(a, words)[..5] + [StalledBeats(a, words)[5]] == StalledBeats(a, words);
  }

  lemma {:induction false} Filled(xs: seq<StreamIn>, f: Stream, fed: bool, a: u32, words: seq<Quad>, b: nat)
    returns (more: seq<StreamIn>, g: Stream)
    requires FrameFits(a, FRAME_BYTES)
    requires |words| == 6 && b < 6 && RunTo(xs, f, fed) && Filling(f, a, words, false, b)
    ensures RunTo(more, g, fed) && Filling(g, a, words, true, 6)
    decreases 6 - b
  {
    hide RunTo, Filling, StreamMoves;
    QuietThere(xs, f, fed);
    more, g := Ticks(xs, f, fed, true, [words[b]]);
    FillStep(f, a, words, b, g);
    if b < 5 {
      more, g := Filled(more, g, fed, a, words, b + 1);
    }
  }

  lemma {:induction false} Loaded(xs: seq<StreamIn>, f: Stream, fed: bool, a: u32, words: seq<Quad>, k: nat)
    returns (more: seq<StreamIn>, g: Stream)
    requires FrameFits(a, FRAME_BYTES)
    requires k <= 4 && RunTo(xs, f, fed) && Loading(f, a, words, k)
    ensures RunTo(more, g, fed) && Loading(g, a, words, 4)
    decreases 4 - k
  {
    hide RunTo, Loading, StreamMoves;
    more, g := xs, f;
    if k < 4 {
      QuietThere(xs, f, fed);
      more, g := Ticks(xs, f, fed, true, []);
      BeatStep(f, a, words, k, g);
      more, g := Loaded(more, g, fed, a, words, k + 1);
    }
  }

  lemma FifoReady(f: Stream, a: u32, words: seq<Quad>)
    requires FrameFits(a, FRAME_BYTES)
    requires Asleep(f, a, true, 0)
    ensures Filling(f, a, words, false, 0)
  {
  }

  predicate Garbled(f: Stream, a: u32, words: seq<Quad>)
    requires |words| == 6
  {
    && f.c.s.mwr == MwrIdle && f.popped == words && f.astray && !f.emptyRead
    && f.c.h.frame == [Tlp(StalledBeats(a, words), true)]
  }

  lemma StalledRun(a: u32, words: seq<Quad>) returns (xs: seq<StreamIn>, g: Stream)
    requires FrameFits(a, FRAME_BYTES) && |words| == 6
    ensures RunTo(xs, g, false) && Garbled(g, a, words)
  {
    hide *;
    var f;
    xs, f := FrameBegun(a);
    FifoReady(f, a, words);
    xs, f := Filled(xs, f, true, a, words, 0);
    QuietThere(xs, f, true);
    xs, g := Ticks(xs, f, true, true, []);
    BeginStep(f, a, words, g);
    QuietThere(xs, g, true);
    xs, f := Ticks(xs, g, true, false, []);
    StallStep(g, a, words, f);
    QuietThere(xs, f, false);
    xs, g := Ticks(xs, f, false, true, []);
    HeadStep(f, a, words, g);
    xs, f := Loaded(xs, g, false, a, words, 0);
    QuietThere(xs, f, false);
    xs, g := Ticks(xs, f, false, true, []);
    LastStep(f, a, words, g);
  }

  /** For any six words: with TREADY low for that one cycle, the first TLP of the frame is accepted
      with two headers and the words 1 to 4, though the FIFO is never read empty. */
  lemma StallGarbles(a: u32, words: seq<Quad>) returns (xs: seq<StreamIn>, g: Stream)
    requires FrameFits(a, FRAME_BYTES) && |words| == 6
    ensures Always(NextStream, StreamStart(NO_WORD), xs, UncutEdge)
    ensures RunFrom(NextStream, StreamStart(NO_WORD), xs) == g
    ensures g.c.s.mwr == MwrIdle && g.popped == words && g.astray && !g.emptyRead
    ensures g.c.h.frame == [Tlp(StalledBeats(a, words), true)]
  {
    xs, g := StalledRun(a, words);
    hide NextStream, UncutEdge, StreamStart;
  }
}
