/** Inputs with which the engine misbehaves, each reached from reset by ordinary register writes: the
    race, a TLP that BYTES_SENT misses, and a stall that garbles a payload. */
module DmaExamples {
  import opened Words
  import opened Runs
  import opened DmaEngine
  import opened DmaInvariant
  import opened DmaHistory
  import opened DmaTheorems
  import opened DmaScenario

  /** Link up, DMA enabled, TREADY high, five words in the FIFO, and the given inbound beat. */
  function Flow(valid: bool, dw0: u32, dw2: u32): In {
    In(true, true, true, true, false, valid, InBeat(dw0, dw2), 5, false, false, NO_WORD)
  }

  const FLOW := Flow(false, 0, 0)

  predicate NothingSent(h: History) { h.total == [] && h.missed == 0 }

  /** A run is extended by one edge that decodes no command and completes no TLP. */
  lemma OneMore(c: Config, ins: seq<In>, d: Config, i: In) returns (more: seq<In>, e: Config)
    requires Always(Next, c, ins, LegalEdge) && After(c, ins) == d && d.s.inb.length == 0 && Link(i)
    requires NothingSent(d.h) && !MwrTlast(d.s, i)
    ensures more == ins + [i] && e == Next(d, i)
    ensures Always(Next, c, more, LegalEdge) && After(c, more) == e
    ensures EngineEdge(d.s, i, e.s) && e.s.inb == NextInbound(d.s, i) && NothingSent(e.h)
  {
    more, e := ins + [i], Next(d, i);
    assert e.s == Step(d.s, i) && e.h == NextHistory(d.s, d.h, i);
    FreshStep(d.s, d.h, i, e.h);
    NoCommandIsLegal(d.s, i);
    hide Next, Legal;
    Snoc(Next, c, ins, i, LegalEdge);
  }

  /** `rc_cfg_ep_flag` has just risen, with VS high. */
  predicate Poised(c: Config, h: Host, a: u32) {
    Waiting(c.s, h, a, false, false) && Settled(h) && Quiet(c.s) && c.s.inb.vs0 && NothingSent(c.h)
  }

  /** From there to the offer of the first header. */
  lemma FirstHeader(c: Config, h: Host, a: u32) returns (ins: seq<In>, d: Config)
    requires Poised(c, h, a)
    ensures Always(Next, c, ins, LegalEdge) && After(c, ins) == d
    ensures AtData(d.s, h, a, 0) && Quiet(d.s) && NothingSent(d.h)
  {
    hide LegalEdge, MwrTxActive, After, NextHost, NextXfer, NextCpl, NextOut, NextMwr, Next;
    var e := c;
    ins := [];
    assert After(c, ins) == c by { NoEdges(c); }
    ins, d := OneMore(c, ins, e, FLOW);
    Waits(e.s, h, a, false, FLOW, d.s);
    e := d;
    ins, d := OneMore(c, ins, e, FLOW);
    Waits(e.s, h, a, false, FLOW, d.s);
    e := d;
    ins, d := OneMore(c, ins, e, FLOW);
    Waits(e.s, h, a, true, FLOW, d.s);
    e := d;
    ins, d := OneMore(c, ins, e, FLOW);
    Begins(e.s, h, a, FLOW, d.s);
    e := d;
    ins, d := OneMore(c, ins, e, FLOW);
    HeaderGoes(e.s, h, a, false, FLOW, d.s);
  }

  lemma NoEdges(c: Config)
    ensures After(c, []) == c
  {
  }

  // ---------------------------------------------------------------- the race

  lemma RaceHere(s: Regs, i: In, a: u32)
    requires FrameFits(a, FRAME_BYTES)
    requires Still(s, StartedAt(a)) && Has(s, ARM_REG, ARM_MAGIC) && Flows(i)
    ensures Race(s, i)
  {
    hide Swab32, Handled, ProgrammedAt, StartedAt;
    StartedHost(a);
    SwabbedWrites();
  }

  /** The race, and the engine right after it: armed without an address, and yet transferring. */
  lemma RaceEdge(a: u32) returns (c: Config, i: In)
    requires FrameFits(a, FRAME_BYTES)
    ensures Reached(c) && Good(c) && Link(i) && Race(c.s, i)
    ensures Poised(Next(c, i), ARMED, a)
  {
    c := Started(a);
    StartedHost(a);
    c := Brought(c, StartedAt(a), ARM_REG, ARM_MAGIC, false);
    i := Beat(true, false, 0, 0).(vs := true);
    hide Reached;
    ReachedIsFresh(c);
    RaceHere(c.s, i, a);
    RaceLeads(c, i, a);
  }

  lemma RaceLeads(c: Config, i: In, a: u32)
    requires FrameFits(a, FRAME_BYTES)
    requires Still(c.s, StartedAt(a)) && Has(c.s, ARM_REG, ARM_MAGIC) && Flows(i) && i.vs && !i.beatValid
    requires NothingSent(c.h)
    ensures Poised(Next(c, i), ARMED, a)
  {
    var d := Next(c, i);
    assert d.s.inb == NextInbound(c.s, i);
    assert EngineEdge(c.s, i, d.s) && d.h == NextHistory(c.s, c.h, i);
    hide Next;
    Rises(c.s, a, i, d.s);
    FreshStep(c.s, c.h, i, d.h);
  }

  /** The header on offer is not one for the active range, and the last TLP is never recognised. */
  predicate HeaderAstray(s: Regs) {
    && s.out.tvalid && s.out.tdata.Request?
    && !HeaderInside(s.out.tdata.header, s.host.activeAddr, s.xfer.cnt)
    && s.host.activeLen == 0 && !FinalTlp(s)
  }

  lemma ArmedAstray(s: Regs, a: u32)
    requires FrameFits(a, FRAME_BYTES)
    requires AtData(s, ARMED, a, 0)
    ensures HeaderAstray(s)
  {
    StartedHost(a);
  }

  /** From reset, legal edges lead to a configuration in which the excluded edge can come next. It
      breaks the register invariant, and edges that are all legal again then lead to a request header
      on offer outside the active range. */
  lemma RaceIsReachable(a: u32) returns (c: Config, i: In, ins: seq<In>)
    requires FrameFits(a, FRAME_BYTES)
    ensures Reached(c) && Link(i) && Race(c.s, i) && !RegsOk(Step(c.s, i))
    ensures Always(Next, Next(c, i), ins, LegalEdge)
    ensures HeaderAstray(After(Next(c, i), ins).s)
  {
    c, i := RaceEdge(a);
    InvariantBreaksExactlyOnRace(c.s, i);
    hide *;
    var e;
    ins, e := FirstHeader(Next(c, i), ARMED, a);
    ArmedAstray(e.s, a);
  }

  // ---------------------------------------------------------------- a missed TLP

  /** A START without disturbance: `rc_cfg_ep_flag` has just risen. */
  lemma Undisturbed(a: u32) returns (c: Config)
    requires FrameFits(a, FRAME_BYTES)
    ensures Reached(c) && Poised(c, StartedAt(a), a)
  {
    var b := Started(a);
    var i := Beat(true, false, 0, 0).(vs := true);
    ReachedIsFresh(b);
    c := Next(b, i);
    RiseLeads(b, i, a);
    hide Reached, Next;
    CalmNext(b, i);
  }

  lemma RiseLeads(c: Config, i: In, a: u32)
    requires FrameFits(a, FRAME_BYTES)
    requires Still(c.s, StartedAt(a)) && Quiet(c.s) && Flows(i) && i.vs && !i.beatValid && NothingSent(c.h)
    ensures Poised(Next(c, i), StartedAt(a), a)
  {
    var d := Next(c, i);
    assert d.s.inb == NextInbound(c.s, i);
    assert EngineEdge(c.s, i, d.s) && d.h == NextHistory(c.s, c.h, i);
    hide Next;
    StartedHost(a);
    Rises(c.s, a, i, d.s);
    FreshStep(c.s, c.h, i, d.h);
  }

  /** Four payload beats, with a STOP write coming in behind them. */
  lemma LastBeatWithStop(c: Config, ins: seq<In>, d: Config, h: Host, a: u32) returns (more: seq<In>, e: Config)
    requires Always(Next, c, ins, LegalEdge) && After(c, ins) == d
    requires AtData(d.s, h, a, 0) && Settled(h) && Quiet(d.s) && NothingSent(d.h)
    ensures Always(Next, c, more, LegalEdge) && After(c, more) == e
    ensures AtData(e.s, h, a, 4) && Has(e.s, STOP_REG, 0) && NothingSent(e.h)
  {
    hide LegalEdge, MwrTxActive, After, NextHost, NextXfer, NextCpl, NextOut, NextMwr, Next;
    more, e := OneMore(c, ins, d, FLOW);
    BeatGoes(d.s, h, a, 0, FLOW, e.s);
    var f := e;
    more, e := OneMore(c, more, f, FLOW);
    BeatGoes(f.s, h, a, 1, FLOW, e.s);
    f := e;
    more, e := OneMore(c, more, f, Flow(true, 0x4000_0001, STOP_REG));
    BeatGoes(f.s, h, a, 2, Flow(true, 0x4000_0001, STOP_REG), e.s);
    f := e;
    more, e := OneMore(c, more, f, Flow(false, 0, 0));
    BeatGoes(f.s, h, a, 3, Flow(false, 0, 0), e.s);
  }

  lemma MissedHere(c: Config, a: u32)
    requires FrameFits(a, FRAME_BYTES)
    requires AtData(c.s, StartedAt(a), a, 4) && Has(c.s, STOP_REG, 0) && NothingSent(c.h) && Good(c)
    ensures LegalEdge(c, FLOW) && MwrTlast(c.s, FLOW) && Preempted(c.s)
    ensures var d := Next(c, FLOW);
            |d.h.total| == 1 && TlpAt(d.h.total[0], a) && d.s.host.bytesSent == 0
  {
    StartedHost(a);
    FinishedTlpShape(c.s, c.h, FLOW);
    hide TlpAt, FinishedTlp, Swab32;
  }

  /** A STOP decoded in the TLAST cycle of the first TLP: 64 bytes have been accepted, BYTES_SENT
      stays 0. */
  lemma TlpIsMissed(a: u32) returns (c: Config, ins: seq<In>, i: In)
    requires FrameFits(a, FRAME_BYTES)
    ensures Reached(c) && Always(Next, c, ins, LegalEdge)
    ensures var d := After(c, ins);
            && LegalEdge(d, i) && MwrTlast(d.s, i) && Preempted(d.s)
            && |Next(d, i).h.total| == 1 && TlpAt(Next(d, i).h.total[0], a) && Next(d, i).s.host.bytesSent == 0
  {
    c := Undisturbed(a);
    ReachedIsFresh(c);
    StartedHost(a);
    var d;
    assert Settled(StartedAt(a));
    assert Fresh(c) ==> Good(c);
    hide *;
    ins, d := FirstHeader(c, StartedAt(a), a);
    ins, d := LastBeatWithStop(c, ins, d, StartedAt(a), a);
    GoodRun(c, ins);
    i := FLOW;
    MissedHere(d, a);
  }
}
