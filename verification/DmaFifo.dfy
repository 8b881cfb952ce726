/** The engine in front of an ideal FIFO: when the FIFO is read empty, which of its words a frame
    carries, and exactly which link stalls spoil that. */
module DmaFifo {
  import opened Words
  import opened Runs
  import opened DmaEngine
  import opened DmaInvariant
  import opened DmaHistory

  /** `unread`: words in the FIFO, oldest first. `word`: its output register. `popped`: words read
      since `rc_cfg_ep_flag` last rose. `hold`: edges until the read-side reset is released.
      `emptyRead`: the FIFO was once read while empty. `astray`: once a payload beat was loaded
      while the output register did not hold the FIFO word of its place in the frame. */
  datatype Stream = Stream(
    c: Config, unread: seq<Quad>, word: Quad, popped: seq<Quad>, hold: nat, emptyRead: bool, astray: bool)

  /** One edge: the other inputs, and the words the pixel side completes during the cycle. */
  datatype StreamIn = StreamIn(i: In, pushed: seq<Quad>)

  /** The engine's inputs with the FIFO's pins driven by the FIFO. */
  function Pins(f: Stream, x: StreamIn): In {
    x.i.(waterLevel := |f.unread|, fifoEmpty := f.unread == [], fifoWord := f.word)
  }

  /** `fifo_reset_async`. */
  predicate FifoReset(s: Regs, i: In) {
    !i.rstn || !i.linkUp || (!s.host.start && !s.xfer.rc)
  }

  predicate Pops(f: Stream) { f.c.s.out.rdEn && f.unread != [] }

  /** A payload beat is loaded into the output registers at this edge. */
  predicate Loads(s: Regs, i: In) {
    OutModeOf(s, i).OutMwr? && s.mwr == MwrData && i.tready && !s.out.tlast
  }

  /** The output register holds the word of the place that comes next in the frame. */
  predicate InPlace(f: Stream) { |f.popped| == 4 * f.c.s.xfer.cnt + f.c.s.out.lenCnt + 1 }

  function NextStream(f: Stream, x: StreamIn): Stream {
    var i := Pins(f, x);
    var reset := FifoReset(f.c.s, i);
    Stream(
      Next(f.c, i),
      if reset || f.hold > 0 then [] else (if Pops(f) then f.unread[1..] else f.unread) + x.pushed,
      if Pops(f) then f.unread[0] else f.word,
      if RcRises(f.c.s, i) then [] else if Pops(f) then f.popped + [f.unread[0]] else f.popped,
      if reset then 2 else if f.hold > 0 then f.hold - 1 else 0,
      f.emptyRead || (f.c.s.out.rdEn && f.unread == []),
      f.astray || (Loads(f.c.s, i) && !InPlace(f)))
  }

  predicate LegalStream(f: Stream, x: StreamIn) { Legal(f.c.s, Pins(f, x)) }

  function StreamStart(word: Quad): Stream { Stream(START_CONFIG, [], word, [], 2, false, false) }

  // ---------------------------------------------------------------- the stalls that matter

  /** TREADY is awaited with the FIFO running: from the HEADER state to the fourth payload word. */
  predicate NeedsReady(s: Regs) { s.mwr == MwrHeader || (s.mwr == MwrData && s.out.lenCnt < 4) }

  /** A stall there. Stalls in IDLE or with TLAST on offer do no harm. */
  predicate Starves(s: Regs, i: In) { OutModeOf(s, i).OutMwr? && NeedsReady(s) && !i.tready }

  predicate Fed(f: Stream, x: StreamIn) { !Starves(f.c.s, x.i) }

  predicate FedEdge(f: Stream, x: StreamIn) { LegalStream(f, x) && Fed(f, x) }

  // ---------------------------------------------------------------- invariant

  /** `n` words have been read before the current one, which is in the output register. */
  predicate ReadUpTo(f: Stream, n: nat) {
    |f.popped| == n + 1 && f.word == f.popped[n]
  }

  predicate HoldOk(f: Stream) {
    (f.hold > 0 ==> f.unread == []) && (f.c.s.xfer.dmaStart ==> f.hold == 0)
  }

  /** Between TLPs. Before the very first one, word 0 is fetched in the IDLE state. */
  predicate IdleReads(f: Stream) {
    var s := f.c.s;
    && (!s.xfer.rc ==> !s.out.rdEn)
    && (s.xfer.rc && s.mwr == MwrIdle ==>
          && (s.xfer.cnt > 0 ==> s.out.preRead && !s.out.rdEn)
          && (s.out.rdEn ==> s.out.preRead && s.xfer.dmaStart)
          && (if s.out.preRead && !s.out.rdEn then ReadUpTo(f, 4 * s.xfer.cnt) else f.popped == [])
          && (s.xfer.dmaStart ==> |f.unread| >= (if f.popped == [] then 5 else 4)))
  }

  /** In the one HEADER cycle: the very first TLP may still be fetching word 0. */
  predicate HeaderReads(f: Stream) {
    var s := f.c.s;
    s.mwr == MwrHeader ==>
      && !s.out.tvalid && s.out.preRead
      && (if s.out.rdEn then s.xfer.cnt == 0 && f.popped == [] && |f.unread| >= 5
          else ReadUpTo(f, 4 * s.xfer.cnt) && |f.unread| >= 4)
  }

  /** With `lenCnt` payload beats loaded. */
  predicate DataReads(f: Stream) {
    var (s, k) := (f.c.s, f.c.s.out.lenCnt);
    s.mwr == MwrData ==>
      && s.out.preRead && !f.c.h.stalled && k <= 4
      && (s.out.rdEn <==> k < 4)
      && ReadUpTo(f, 4 * s.xfer.cnt + k) && |f.unread| + k >= 4
  }

  /** Payload beat `j` of a TLP that starts at FIFO word `n`. */
  predicate PayloadIs(b: OutBeat, words: seq<Quad>, n: nat) {
    n < |words| && b.data == Payload(SwabQuad(words[n]))
  }

  /** The beats accepted so far and the beat on offer carry the words in order. */
  predicate CurPayload(f: Stream) {
    var (s, cur) := (f.c.s, f.c.h.cur);
    s.mwr == MwrData && s.out.lenCnt > 0 ==>
      && |cur| == s.out.lenCnt
      && (forall j | 1 <= j < |cur| :: PayloadIs(cur[j], f.popped, 4 * s.xfer.cnt + j - 1))
      && PayloadIs(OutBeat(s.out.tdata, false), f.popped, 4 * s.xfer.cnt + s.out.lenCnt - 1)
  }

  predicate CarriesWords(t: Tlp, words: seq<Quad>, n: nat) {
    && |t.beats| == 5
    && (forall j | 1 <= j < 5 :: PayloadIs(t.beats[j], words, n + j - 1))
  }

  predicate FramePayload(f: Stream) {
    f.c.s.xfer.rc || f.c.s.host.done ==>
      forall k | 0 <= k < |f.c.h.frame| :: CarriesWords(f.c.h.frame[k], f.popped, 4 * k)
  }

  /** A finished frame has read one word more than it carries. */
  predicate DoneReads(f: Stream) { f.c.s.host.done ==> |f.popped| == 4 * FRAME_TLPS + 1 }

  predicate Reads(f: Stream) { HoldOk(f) && IdleReads(f) && HeaderReads(f) && DataReads(f) }

  predicate StreamOk(f: Stream) {
    Good(f.c) && Reads(f) && DoneReads(f) && CurPayload(f) && FramePayload(f) && !f.emptyRead && !f.astray
  }

  // ---------------------------------------------------------------- every edge keeps it

  predicate StreamEdge(f: Stream, i: In, g: Stream) {
    && !Starves(f.c.s, i) && i.waterLevel == |f.unread| && i.fifoWord == f.word
    && g.c.s.xfer == NextXfer(f.c.s, i) && g.c.s.mwr == NextMwr(f.c.s, i)
    && g.c.s.out == NextOut(f.c.s, i) && g.c.h == NextHistory(f.c.s, f.c.h, i)
    && (|g.unread| >= |f.unread| - (if Pops(f) then 1 else 0) || FifoReset(f.c.s, i) || f.hold > 0)
    && g.word == (if Pops(f) then f.unread[0] else f.word)
    && g.popped == (if RcRises(f.c.s, i) then [] else if Pops(f) then f.popped + [f.unread[0]] else f.popped)
  }

  lemma HoldStep(f: Stream, x: StreamIn, g: Stream)
    requires HoldOk(f) && Machines(f.c.s) && Link(x.i)
    requires g.hold == NextStream(f, x).hold && g.unread == NextStream(f, x).unread
    requires g.c.s.xfer == NextXfer(f.c.s, Pins(f, x))
    ensures HoldOk(g)
  {
  }

  lemma IdleReadsStep(f: Stream, i: In, g: Stream)
    requires Machines(f.c.s) && HostFlags(f.c.s) && StopFlags(f.c.s) && Position(f.c.s)
    requires HeaderOutput(f.c.s) && DataOutput(f.c.s) && Link(i)
    requires Reads(f) && StreamEdge(f, i, g)
    ensures IdleReads(g)
  {
    hide NextHistory;
  }

  lemma HeaderReadsStep(f: Stream, i: In, g: Stream)
    requires Machines(f.c.s) && HostFlags(f.c.s) && StopFlags(f.c.s) && Link(i)
    requires Reads(f) && StreamEdge(f, i, g)
    ensures HeaderReads(g)
  {
  }

  lemma DataReadsStep(f: Stream, i: In, g: Stream)
    requires Machines(f.c.s) && HostFlags(f.c.s) && StopFlags(f.c.s) && HeaderOutput(f.c.s) && DataOutput(f.c.s)
    requires Link(i) && Reads(f) && StreamEdge(f, i, g)
    ensures DataReads(g)
  {
    hide Swab32, SwabQuad, NextHost, BeatsOf, FinishedTlp;
    if f.c.s.mwr == MwrHeader {
      assert f.c.s.out.lenCnt == 0 || !f.c.s.out.tvalid;
    } else if f.c.s.mwr == MwrData {
      assert f.c.s.out.preRead;
    }
  }

  /** The accepted beats still carry their words when one more is accepted and more are read. */
  lemma PayloadKept(cur: seq<OutBeat>, b: OutBeat, words: seq<Quad>, more: seq<Quad>, n: int)
    requires n >= 0 && words <= more && forall j | 1 <= j < |cur| :: PayloadIs(cur[j], words, n + j - 1)
    requires |cur| >= 1 ==> PayloadIs(b, words, n + |cur| - 1)
    ensures forall j | 1 <= j < |cur + [b]| :: PayloadIs((cur + [b])[j], more, n + j - 1)
  {
  }

  lemma LoadedBeat(f: Stream, i: In, g: Stream)
    requires DataOutput(f.c.s) && DataReads(f) && StreamEdge(f, i, g) && Machines(f.c.s) && Link(i)
    requires f.c.s.mwr == MwrData && g.c.s.mwr == MwrData && f.c.s.out.lenCnt < 4
    ensures var (o, k) := (g.c.s.out, f.c.s.out.lenCnt);
            && o.lenCnt == k + 1 && g.c.s.xfer.cnt == f.c.s.xfer.cnt && f.popped <= g.popped
            && PayloadIs(OutBeat(o.tdata, false), f.popped, 4 * f.c.s.xfer.cnt + k)
    ensures g.c.h.cur == f.c.h.cur + [OutBeat(f.c.s.out.tdata, f.c.s.out.tlast)]
  {
    hide Swab32, NextHost, HostEventOf;
  }

  /** TLAST is on offer and not taken: everything stands still. */
  lemma HeldBeat(f: Stream, i: In, g: Stream)
    requires DataOutput(f.c.s) && DataReads(f) && StreamEdge(f, i, g) && Machines(f.c.s) && Link(i)
    requires f.c.s.mwr == MwrData && g.c.s.mwr == MwrData && f.c.s.out.lenCnt == 4
    ensures var (o, p) := (g.c.s.out, f.c.s.out);
            && o.lenCnt == p.lenCnt && o.tdata == p.tdata && g.c.s.xfer.cnt == f.c.s.xfer.cnt
            && f.popped <= g.popped && g.c.h.cur == f.c.h.cur
  {
    hide Swab32, NextHost, HostEventOf;
  }

  lemma NothingYet(f: Stream)
    requires DataReads(f) && CurOk(f.c.s, f.c.h) && f.c.s.mwr == MwrData
    ensures f.c.s.out.lenCnt == 0 ==> f.c.h.cur == []
  {
  }

  /** A payload beat is loaded into the output registers. */
  lemma LoadStep(f: Stream, i: In, g: Stream)
    requires Machines(f.c.s) && HostFlags(f.c.s) && DataOutput(f.c.s) && CurOk(f.c.s, f.c.h) && Link(i)
    requires DataReads(f) && CurPayload(f) && StreamEdge(f, i, g)
    requires f.c.s.mwr == MwrData && g.c.s.mwr == MwrData && f.c.s.out.lenCnt < 4
    ensures CurPayload(g)
  {
    hide StreamEdge, NextMwr, NextOut, NextXfer, NextHistory, SwabQuad, Machines, HostFlags, DataOutput, BeatsOf, Link;
    LoadedBeat(f, i, g);
    var (cur, beat) := (f.c.h.cur, OutBeat(f.c.s.out.tdata, f.c.s.out.tlast));
    NothingYet(f);
    hide CurOk, DataReads;
    assert |cur| == f.c.s.out.lenCnt;
    PayloadKept(cur, beat, f.popped, g.popped, 4 * f.c.s.xfer.cnt);
  }

  lemma CurPayloadStep(f: Stream, i: In, g: Stream)
    requires Machines(f.c.s) && HostFlags(f.c.s) && HeaderOutput(f.c.s) && DataOutput(f.c.s)
    requires CurOk(f.c.s, f.c.h) && Link(i)
    requires Reads(f) && CurPayload(f) && StreamEdge(f, i, g)
    ensures CurPayload(g)
  {
    if f.c.s.mwr == MwrData && g.c.s.mwr == MwrData {
      if f.c.s.out.lenCnt < 4 {
        LoadStep(f, i, g);
      } else {
        HeldBeat(f, i, g);
        hide StreamEdge;
      }
    }
  }

  lemma FinishedPayload(f: Stream, i: In)
    requires Machines(f.c.s) && DataOutput(f.c.s) && CurPayload(f) && MwrTlast(f.c.s, i)
    ensures CarriesWords(FinishedTlp(f.c.s, f.c.h, i), f.popped, 4 * f.c.s.xfer.cnt)
  {
  }

  lemma FramePayloadStep(f: Stream, i: In, g: Stream)
    requires Machines(f.c.s) && HostFlags(f.c.s) && DataOutput(f.c.s) && Link(i)
    requires FrameOk(f.c.s, f.c.h) && Reads(f) && CurPayload(f) && FramePayload(f)
    requires StreamEdge(f, i, g) && g.c.s.host == NextHost(f.c.s, i)
    ensures FramePayload(g)
  {
    if MwrTlast(f.c.s, i) {
      FinishedPayload(f, i);
    }
  }

  lemma DoneReadsStep(f: Stream, i: In, g: Stream)
    requires Machines(f.c.s) && HostFlags(f.c.s) && Position(f.c.s) && DataOutput(f.c.s) && Link(i)
    requires IdleReads(f) && DataReads(f) && DoneReads(f) && StreamEdge(f, i, g) && g.c.s.host == NextHost(f.c.s, i)
    ensures DoneReads(g)
  {
    if MwrTlast(f.c.s, i) {
      LimitIsFrame(f.c.s);
    }
    hide NextHistory, NextMwr, NextOut;
  }

  lemma EdgeOfStream(f: Stream, x: StreamIn)
    requires Fed(f, x)
    ensures StreamEdge(f, Pins(f, x), NextStream(f, x)) && !Starves(f.c.s, Pins(f, x))
  {
    hide NextInbound, NextHost, NextFault, NextXfer, NextCpl, NextOut, NextMwr, NextStatus, NextHistory;
  }

  lemma StreamParts(f: Stream)
    requires Good(f.c) && HoldOk(f) && IdleReads(f) && HeaderReads(f) && DataReads(f)
    requires DoneReads(f) && CurPayload(f) && FramePayload(f) && !f.emptyRead && !f.astray
    ensures StreamOk(f)
  {
  }

  /** Read enable meets a word, and a payload beat is loaded in its place. */
  lemma InStep(f: Stream, i: In)
    requires Reads(f) && Machines(f.c.s) && DataOutput(f.c.s) && !Starves(f.c.s, i)
    ensures f.c.s.out.rdEn ==> f.unread != []
    ensures Loads(f.c.s, i) ==> InPlace(f)
  {
  }

  lemma StreamStep(f: Stream, x: StreamIn)
    requires StreamOk(f) && FedEdge(f, x)
    ensures StreamOk(NextStream(f, x))
  {
    var i, g := Pins(f, x), NextStream(f, x);
    GoodStep(f.c, i);
    hide NextInbound, NextHost, NextFault, NextXfer, NextCpl, NextOut, NextMwr, NextStatus, NextHistory;
    hide Fed, Starves, Loads, InPlace, StreamEdge;
    EdgeOfStream(f, x);
    InStep(f, i);
    HoldStep(f, x, g);
    IdleReadsStep(f, i, g);
    HeaderReadsStep(f, i, g);
    DataReadsStep(f, i, g);
    CurPayloadStep(f, i, g);
    FramePayloadStep(f, i, g);
    DoneReadsStep(f, i, g);
    StreamParts(g);
  }

  // ---------------------------------------------------------------- when it goes wrong

  /** Neither reset nor a loss of DMA enable cuts a TLP short. */
  predicate UncutEdge(f: Stream, x: StreamIn) {
    LegalStream(f, x) && x.i.rstn && (f.c.s.mwr != MwrIdle ==> x.i.dmaEnable)
  }

  /** A word beyond the one due next has been read, or is about to be, with a beat still to load. */
  predicate Ahead(f: Stream) {
    var (s, n) := (f.c.s, |f.popped|);
    || (s.mwr == MwrHeader && s.out.tvalid && s.out.rdEn && n >= 4 * s.xfer.cnt + 1)
    || (s.mwr == MwrData && s.out.lenCnt < 4 && n > 4 * s.xfer.cnt + s.out.lenCnt + 1)
  }

  predicate Off(f: Stream) { f.emptyRead || f.astray || Ahead(f) }

  predicate OffEdge(f: Stream, i: In, g: Stream) {
    && g.c.s.xfer == NextXfer(f.c.s, i) && g.c.s.mwr == NextMwr(f.c.s, i) && g.c.s.out == NextOut(f.c.s, i)
    && g.popped == (if RcRises(f.c.s, i) then [] else if Pops(f) then f.popped + [f.unread[0]] else f.popped)
    && g.emptyRead == (f.emptyRead || (f.c.s.out.rdEn && f.unread == []))
    && g.astray == (f.astray || (Loads(f.c.s, i) && !InPlace(f)))
  }

  lemma EdgeOff(f: Stream, x: StreamIn)
    ensures OffEdge(f, Pins(f, x), NextStream(f, x))
  {
    hide NextInbound, NextHost, NextFault, NextXfer, NextCpl, NextOut, NextMwr, NextStatus, NextHistory, Loads, InPlace;
  }

  /** A stall that starves the TLP skips a FIFO word. */
  lemma StallSkipsWord(f: Stream, i: In, g: Stream)
    requires Machines(f.c.s) && HostFlags(f.c.s) && StopFlags(f.c.s) && HeaderOutput(f.c.s) && DataOutput(f.c.s)
    requires Reads(f) && Link(i) && i.rstn && i.dmaEnable && Starves(f.c.s, i) && OffEdge(f, i, g)
    ensures Off(g)
  {
  }

  /** Once off, a TLP stays off until a beat is loaded out of its place. */
  lemma StaysOff(f: Stream, i: In, g: Stream)
    requires Machines(f.c.s) && HostFlags(f.c.s) && StopFlags(f.c.s) && HeaderOutput(f.c.s) && DataOutput(f.c.s)
    requires Off(f) && Link(i) && i.rstn && (f.c.s.mwr != MwrIdle ==> i.dmaEnable) && OffEdge(f, i, g)
    ensures Off(g)
  {
  }

  predicate GoodOff(f: Stream) { Good(f.c) && Off(f) }

  lemma OffStep(f: Stream, x: StreamIn)
    requires Good(f.c) && UncutEdge(f, x) && (Off(f) || (StreamOk(f) && !Fed(f, x)))
    ensures GoodOff(NextStream(f, x))
  {
    var i, g := Pins(f, x), NextStream(f, x);
    GoodStep(f.c, i);
    EdgeOff(f, x);
    hide NextStream, OffEdge, Step, NextHistory, NextMwr, NextOut, NextXfer, NextHost, NextInbound, NextCpl, NextFault,
      NextStatus, Off;
    if Off(f) {
      StaysOff(f, i, g);
    } else {
      StallSkipsWord(f, i, g);
    }
  }

  lemma {:induction false} OffRun(f: Stream, xs: seq<StreamIn>)
    requires GoodOff(f) && Always(NextStream, f, xs, UncutEdge)
    ensures Off(RunFrom(NextStream, f, xs))
    decreases |xs|
  {
    if xs != [] {
      OffStep(f, xs[0]);
      hide NextStream, UncutEdge, Off, Good;
      OffRun(NextStream(f, xs[0]), xs[1..]);
    }
  }

  lemma {:induction false} InStepFrom(f: Stream, xs: seq<StreamIn>)
    requires StreamOk(f) && Always(NextStream, f, xs, UncutEdge)
    ensures if Always(NextStream, f, xs, Fed) then StreamOk(RunFrom(NextStream, f, xs))
            else Off(RunFrom(NextStream, f, xs))
    decreases |xs|
  {
    if xs != [] {
      var g := NextStream(f, xs[0]);
      if Fed(f, xs[0]) {
        StreamStep(f, xs[0]);
        hide NextStream, UncutEdge, Off, Good, Fed, StreamOk;
        InStepFrom(g, xs[1..]);
      } else {
        OffStep(f, xs[0]);
        hide NextStream, UncutEdge, Off, Good, Fed;
        OffRun(g, xs[1..]);
      }
    }
  }

  // ---------------------------------------------------------------- whole runs

  lemma StreamStarts(word: Quad)
    ensures StreamOk(StreamStart(word))
  {
    StartIsGood();
  }

  lemma StreamRun(word: Quad, xs: seq<StreamIn>)
    requires Always(NextStream, StreamStart(word), xs, FedEdge)
    ensures StreamOk(RunFrom(NextStream, StreamStart(word), xs))
  {
    StreamStarts(word);
    forall f, x | StreamOk(f) && FedEdge(f, x) ensures StreamOk(NextStream(f, x)) {
      StreamStep(f, x);
    }
    Keeps(NextStream, StreamOk, FedEdge, StreamStart(word), xs);
  }

  /** The FIFO is never read while empty. */
  lemma NeverReadsEmpty(word: Quad, xs: seq<StreamIn>)
    requires Always(NextStream, StreamStart(word), xs, FedEdge)
    ensures var f := RunFrom(NextStream, StreamStart(word), xs);
            f.c.s.out.rdEn ==> f.unread != []
  {
    StreamRun(word, xs);
  }

  /** Over a run that no reset and no loss of DMA enable cuts, and that ends between TLPs: every
      payload beat was loaded in its place and the FIFO never read empty exactly when TREADY was
      high whenever the engine needed it. */
  lemma InStepExactly(word: Quad, xs: seq<StreamIn>)
    requires Always(NextStream, StreamStart(word), xs, UncutEdge)
    ensures var g := RunFrom(NextStream, StreamStart(word), xs);
            g.c.s.mwr == MwrIdle ==>
              (Always(NextStream, StreamStart(word), xs, Fed) <==> !g.emptyRead && !g.astray)
  {
    StreamStarts(word);
    hide NextStream, UncutEdge, Fed, StreamStart, Good, Reads, CurPayload, FramePayload;
    InStepFrom(StreamStart(word), xs);
  }

  /** DONE comes only once a word beyond the frame has been read: the first word is fetched ahead, and
      the last TLP still waits for four more. */
  lemma DoneNeedsNextWord(word: Quad, xs: seq<StreamIn>)
    requires Always(NextStream, StreamStart(word), xs, FedEdge)
    ensures var f := RunFrom(NextStream, StreamStart(word), xs);
            f.c.s.host.done ==> 16 * |f.popped| == FRAME_BYTES + 16
  {
    StreamRun(word, xs);
  }

  predicate NoUnderflow(f: Stream) { StreamOk(f) && !f.c.s.fault.underflow }

  lemma FaultStep(f: Stream, i: In, t: Regs)
    requires Reads(f) && Machines(f.c.s) && DataOutput(f.c.s) && !f.c.s.fault.underflow
    requires i.fifoEmpty == (f.unread == []) && t.fault == NextFault(f.c.s, i)
    ensures !t.fault.underflow
  {
  }

  /** So the sticky underflow flag, status bit 12, is never raised. */
  lemma NeverUnderflows(word: Quad, xs: seq<StreamIn>)
    requires Always(NextStream, StreamStart(word), xs, FedEdge)
    ensures !RunFrom(NextStream, StreamStart(word), xs).c.s.fault.underflow
  {
    StartIsGood();
    forall f, x | NoUnderflow(f) && FedEdge(f, x) ensures NoUnderflow(NextStream(f, x)) {
      StreamStep(f, x);
      FaultStep(f, Pins(f, x), NextStream(f, x).c.s);
    }
    Keeps(NextStream, NoUnderflow, FedEdge, StreamStart(word), xs);
  }

  predicate BytesReversed(a: u32, b: u32) { forall k: nat | k < 4 :: ByteOf(a, k) == ByteOf(b, 3 - k) }

  predicate QuadReversed(a: Quad, b: Quad) {
    && BytesReversed(a.q0, b.q0) && BytesReversed(a.q1, b.q1)
    && BytesReversed(a.q2, b.q2) && BytesReversed(a.q3, b.q3)
  }

  /** One header, then the words `n` to `n` + 3, each dword with its bytes reversed. */
  predicate CarriesReversed(t: Tlp, words: seq<Quad>, n: nat) {
    && |t.beats| == 5
    && forall j | 1 <= j < 5 ::
         n + j - 1 < |words| && t.beats[j].data.Payload? && QuadReversed(t.beats[j].data.quad, words[n + j - 1])
  }

  lemma SwabQuadReverses(w: Quad)
    ensures QuadReversed(SwabQuad(w), w)
  {
    forall k: nat | k < 4
      ensures ByteOf(Swab32(w.q0), k) == ByteOf(w.q0, 3 - k) && ByteOf(Swab32(w.q1), k) == ByteOf(w.q1, 3 - k)
      ensures ByteOf(Swab32(w.q2), k) == ByteOf(w.q2, 3 - k) && ByteOf(Swab32(w.q3), k) == ByteOf(w.q3, 3 - k)
    {
      SwabReversesBytes(w.q0, k);
      SwabReversesBytes(w.q1, k);
      SwabReversesBytes(w.q2, k);
      SwabReversesBytes(w.q3, k);
    }
    hide Swab32, ByteOf;
  }

  lemma CarriedReversed(t: Tlp, words: seq<Quad>, n: nat)
    requires CarriesWords(t, words, n)
    ensures CarriesReversed(t, words, n)
  {
    hide SwabQuad, QuadReversed;
    forall j | 1 <= j < 5
      ensures n + j - 1 < |words| && t.beats[j].data.Payload? && QuadReversed(t.beats[j].data.quad, words[n + j - 1])
    {
      assert PayloadIs(t.beats[j], words, n + j - 1);
      SwabQuadReverses(words[n + j - 1]);
    }
  }

  /** TLP `k` of a frame is one header and the FIFO words 4k to 4k+3 read for that frame, each
      dword with its bytes reversed. */
  lemma FrameCarriesFifoWords(word: Quad, xs: seq<StreamIn>, k: nat)
    requires Always(NextStream, StreamStart(word), xs, FedEdge)
    ensures var f := RunFrom(NextStream, StreamStart(word), xs);
            (f.c.s.xfer.rc || f.c.s.host.done) && k < |f.c.h.frame| ==> CarriesReversed(f.c.h.frame[k], f.popped, 4 * k)
  {
    StreamRun(word, xs);
    var f := RunFrom(NextStream, StreamStart(word), xs);
    if (f.c.s.xfer.rc || f.c.s.host.done) && k < |f.c.h.frame| {
      CarriedReversed(f.c.h.frame[k], f.popped, 4 * k);
    }
  }
}
