/** The accepted traffic of a run: what the history holds in every reachable state. */
module DmaHistory {
  import opened Words
  import opened DmaEngine
  import opened DmaInvariant
  import opened Runs

  function HeaderBeat(addr: u32): OutBeat {
    OutBeat(Request(RequestHeader(addr)), false)
  }

  /** Header beats that have been accepted before payload beat 0: two when TREADY was low as the
      HEADER state was entered, because the registered header is then offered twice. */
  function HeaderCopies(stalled: bool): nat { if stalled then 2 else 1 }

  /** `beats` are the header copies followed by `n` payload beats, TLAST on the fourth only. */
  predicate BeatsOf(beats: seq<OutBeat>, stalled: bool, addr: u32, n: nat) {
    var c := HeaderCopies(stalled);
    && |beats| == c + n
    && (forall k | 0 <= k < c :: beats[k] == HeaderBeat(addr))
    && (forall k | c <= k < c + n :: beats[k].data.Payload? && (beats[k].last <==> k - c == 3))
  }

  /** A complete memory write of 64 bytes at `addr`. */
  predicate TlpAt(t: Tlp, addr: int) {
    0 <= addr < TWO32 && BeatsOf(t.beats, t.stalled, addr, 4)
  }

  /** The beats of the TLP under way. */
  predicate CurOk(s: Regs, h: History) {
    && (s.mwr == MwrIdle ==> h.cur == [])
    && (s.mwr == MwrHeader ==> h.cur == [] && (s.out.tvalid ==> h.stalled))
    && (s.mwr == MwrData ==>
          if s.out.lenCnt == 0 then h.cur == if h.stalled then [HeaderBeat(s.out.alloc)] else []
          else BeatsOf(h.cur, h.stalled, s.out.alloc, s.out.lenCnt - 1))
  }

  predicate TilesFrom(tlps: seq<Tlp>, base: u32) {
    forall k | 0 <= k < |tlps| :: TlpAt(tlps[k], base + 64 * k)
  }

  /** The TLPs of the current or just finished frame, in order and without gaps. */
  predicate FrameOk(s: Regs, h: History) {
    && (s.xfer.rc ==> |h.frame| == s.xfer.cnt)
    && (s.host.done ==> |h.frame| == FRAME_TLPS)
    && (s.xfer.rc || s.host.done ==> TilesFrom(h.frame, s.host.activeAddr))
  }

  /** BYTES_SENT counts the TLPs whose TLAST cycle the decoder had free. */
  predicate BytesOk(s: Regs, h: History) {
    h.missed <= |h.total| && s.host.bytesSent == 64 * (|h.total| - h.missed) % TWO32
  }

  /** With DMA enable held since START and no TLAST cycle lost to a command, the frame is all
      that was sent since START. */
  predicate TotalOk(s: Regs, h: History) {
    !h.dropped && h.missed == 0 ==>
      && (s.xfer.rc || s.host.done ==> h.total == h.frame)
      && (s.host.start && !s.xfer.rc ==> h.total == [])
  }

  /** With DMA enable held since START, `rc_cfg_ep_flag` can only rise in a command-free cycle. */
  predicate RiseOk(s: Regs, h: History) {
    !h.dropped && s.host.start && !s.xfer.rc && RangeValid(s) ==> s.inb.length == 0
  }

  predicate HistoryOk(s: Regs, h: History) {
    CurOk(s, h) && FrameOk(s, h) && BytesOk(s, h) && TotalOk(s, h) && RiseOk(s, h)
  }

  // ---------------------------------------------------------------- every edge keeps it

  lemma CurHeaderStep(s: Regs, h: History, i: In, t: Regs, g: History)
    requires Machines(s) && HeaderOutput(s) && DataOutput(s) && CurOk(s, h) && Link(i)
    requires t.mwr == NextMwr(s, i) && t.out == NextOut(s, i) && g == NextHistory(s, h, i)
    requires t.mwr != MwrData || s.mwr == MwrHeader
    ensures CurOk(t, g)
  {
  }

  lemma CurDataStep(s: Regs, h: History, i: In, t: Regs, g: History)
    requires Machines(s) && HeaderOutput(s) && DataOutput(s) && CurOk(s, h) && Link(i)
    requires t.mwr == NextMwr(s, i) && t.out == NextOut(s, i) && g == NextHistory(s, h, i)
    requires t.mwr == MwrData && s.mwr == MwrData
    ensures CurOk(t, g)
  {
    assert t.out.alloc == s.out.alloc;
    if TxFire(s, i) {
      assert g.cur == h.cur + [OutBeat(s.out.tdata, s.out.tlast)];
    } else {
      assert g.cur == h.cur && t.out.lenCnt == s.out.lenCnt;
    }
  }

  /** The TLP recorded when its TLAST is accepted is complete and starts at the running address. */
  lemma FinishedTlpShape(s: Regs, h: History, i: In)
    requires Machines(s) && DataOutput(s) && CurOk(s, h) && MwrTlast(s, i)
    ensures TlpAt(FinishedTlp(s, h, i), s.out.alloc)
  {
  }

  lemma FrameStep(s: Regs, h: History, i: In, t: Regs, g: History)
    requires Machines(s) && HostFlags(s) && Position(s) && DataOutput(s)
    requires CurOk(s, h) && FrameOk(s, h) && Legal(s, i)
    requires t.host == NextHost(s, i) && t.xfer == NextXfer(s, i) && g == NextHistory(s, h, i)
    ensures FrameOk(t, g)
  {
    if MwrTlast(s, i) {
      FinishedTlpShape(s, h, i);
      LimitIsFrame(s);
    }
    if t.xfer.rc {
      ActiveKept(s, i, t);
    }
  }

  lemma BytesStep(s: Regs, h: History, i: In, t: Regs, g: History)
    requires Machines(s) && BytesOk(s, h) && Link(i)
    requires t.host == NextHost(s, i) && g == NextHistory(s, h, i)
    ensures BytesOk(t, g)
  {
    if HostEventOf(s, i).TlpDone? && !HostCleared(s, i) {
      assert 64 * (|g.total| - g.missed) == 64 * (|h.total| - h.missed) + 64;
      AddMod32(64 * (|h.total| - h.missed), 64);
    }
  }

  lemma TotalStep(s: Regs, h: History, i: In, t: Regs, g: History)
    requires Machines(s) && HostFlags(s) && StopFlags(s) && TotalOk(s, h) && Legal(s, i)
    requires t.host == NextHost(s, i) && t.xfer == NextXfer(s, i) && g == NextHistory(s, h, i)
    ensures TotalOk(t, g)
  {
  }

  lemma RiseStep(s: Regs, h: History, i: In, t: Regs, g: History)
    requires Machines(s) && HostFlags(s) && StopFlags(s) && Decoder(s) && RiseOk(s, h) && Legal(s, i)
    requires t.inb == NextInbound(s, i) && t.host == NextHost(s, i) && t.xfer == NextXfer(s, i)
    requires g == NextHistory(s, h, i)
    ensures RiseOk(t, g)
  {
  }

  lemma CurStep(s: Regs, h: History, i: In, t: Regs, g: History)
    requires Machines(s) && HeaderOutput(s) && DataOutput(s) && CurOk(s, h) && Link(i)
    requires t.mwr == NextMwr(s, i) && t.out == NextOut(s, i) && g == NextHistory(s, h, i)
    ensures CurOk(t, g)
  {
    if t.mwr == MwrData && s.mwr == MwrData {
      CurDataStep(s, h, i, t, g);
    } else {
      CurHeaderStep(s, h, i, t, g);
    }
  }

  lemma HistoryParts(t: Regs, g: History)
    requires CurOk(t, g) && FrameOk(t, g) && BytesOk(t, g) && TotalOk(t, g) && RiseOk(t, g)
    ensures HistoryOk(t, g)
  {
  }

  lemma HistoryOkStep(s: Regs, h: History, i: In)
    requires RegsOk(s) && HistoryOk(s, h) && Legal(s, i)
    ensures HistoryOk(Step(s, i), NextHistory(s, h, i))
  {
    var t, g := Step(s, i), NextHistory(s, h, i);
    hide NextInbound, NextHost, NextFault, NextXfer, NextCpl, NextOut, NextMwr, NextStatus, NextHistory;
    CurStep(s, h, i, t, g);
    FrameStep(s, h, i, t, g);
    BytesStep(s, h, i, t, g);
    TotalStep(s, h, i, t, g);
    RiseStep(s, h, i, t, g);
    HistoryParts(t, g);
  }

  // ---------------------------------------------------------------- whole runs

  datatype Config = Config(s: Regs, h: History)

  const START_CONFIG := Config(RESET, NO_HISTORY)

  function Next(c: Config, i: In): Config { Config(Step(c.s, i), NextHistory(c.s, c.h, i)) }

  predicate LegalEdge(c: Config, i: In) { Legal(c.s, i) }

  /** The configuration after the edges `ins`, from `c`. */
  function After(c: Config, ins: seq<In>): Config { RunFrom(Next, c, ins) }

  predicate Good(c: Config) { RegsOk(c.s) && HistoryOk(c.s, c.h) }

  lemma GoodStep(c: Config, i: In)
    requires Good(c) && LegalEdge(c, i)
    ensures Good(Next(c, i))
  {
    RegsOkStep(c.s, i);
    HistoryOkStep(c.s, c.h, i);
  }

  lemma GoodRun(c: Config, ins: seq<In>)
    requires Good(c) && Always(Next, c, ins, LegalEdge)
    ensures Good(After(c, ins))
  {
    forall d, i | Good(d) && LegalEdge(d, i) ensures Good(Next(d, i)) {
      GoodStep(d, i);
    }
    Keeps(Next, Good, LegalEdge, c, ins);
  }

  lemma StartIsGood()
    ensures Good(START_CONFIG)
  {
    ResetOk();
  }

  /** Every legal run from reset keeps to the invariant and the history. */
  lemma RunIsGood(ins: seq<In>)
    requires Always(Next, START_CONFIG, ins, LegalEdge)
    ensures Good(After(START_CONFIG, ins))
  {
    StartIsGood();
    GoodRun(START_CONFIG, ins);
  }
}
