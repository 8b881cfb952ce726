/** Concrete runs of the engine: from reset through ARM, address, length and START to the first TLP.
    They serve to show that an input with a bad outcome can really come about. */
module DmaScenario {
  import opened Words
  import opened Runs
  import opened DmaEngine
  import opened DmaInvariant
  import opened DmaHistory
  import opened DmaTheorems

  const NO_WORD := Quad(0, 0, 0, 0)

  /** A cycle with link up, TREADY high, no video, and the given inbound beat. */
  function Beat(dmaEnable: bool, valid: bool, dw0: u32, dw2: u32): In {
    In(true, true, dmaEnable, true, false, valid, InBeat(dw0, dw2), 0, true, false, NO_WORD)
  }

  const IDLE_XFER := Xfer(false, 0, false, false, false)

  /** Nothing is moving; only the command decoder holds state. */
  predicate Still(s: Regs, h: Host) {
    && s.host == h && s.xfer == IDLE_XFER && !s.cpl.pending && s.cpl.state == CplIdle
    && !s.out.tvalid && s.mwr == MwrIdle
  }

  predicate Settled(h: Host) { !h.stopFlag && !h.stopPending }

  /** An edge without a command leaves everything still, while no START can take effect. */
  lemma StaysStill(s: Regs, h: Host, i: In, t: Regs)
    requires Still(s, h) && Settled(h) && s.inb.length == 0 && i.rstn && i.linkUp && (h.start ==> !i.dmaEnable)
    requires t.host == NextHost(s, i) && t.xfer == NextXfer(s, i) && t.cpl == NextCpl(s, i)
    requires t.out == NextOut(s, i) && t.mwr == NextMwr(s, i)
    ensures Still(t, h)
  {
  }

  /** The edge that handles a write other than STOP: only the decoder's registers change. */
  lemma HandlesStill(s: Regs, h: Host, i: In, t: Regs)
    requires Still(s, h) && Settled(h) && IsWrite(s) && !h.start && i.rstn && i.linkUp
    requires t.host == NextHost(s, i) && t.xfer == NextXfer(s, i) && t.cpl == NextCpl(s, i)
    requires t.out == NextOut(s, i) && t.mwr == NextMwr(s, i)
    ensures Still(t, t.host)
  {
  }

  /** Header and payload of one write. */
  function Bring(reg: nat, raw: u32, en: bool): seq<In>
    requires reg < 0x1000
  {
    [Beat(en, true, 0x4000_0001, reg), Beat(en, false, raw, 0)]
  }

  /** No beat is in the input pipeline. */
  predicate Quiet(s: Regs) { s.inb.length == 0 && !s.inb.valid0 }

  predicate Has(s: Regs, reg: nat, raw: u32) {
    s.inb.fmtType == 0x40 && s.inb.length == 1 && s.inb.reg == reg && s.inb.beat.dw0 == raw && !s.inb.valid0
  }

  lemma Decodes(s: Regs, reg: nat, raw: u32, en: bool, t: Regs, u: Regs)
    requires Quiet(s) && reg < 0x1000
    requires t.inb == NextInbound(s, Bring(reg, raw, en)[0]) && u.inb == NextInbound(t, Bring(reg, raw, en)[1])
    ensures t.inb.length == 0 && Has(u, reg, raw)
  {
  }

  /** Two edges bring a write into the decoder and change nothing else. */
  lemma Arrives(s: Regs, h: Host, reg: nat, raw: u32, en: bool)
    requires Quiet(s) && Still(s, h) && Settled(h) && reg < 0x1000 && (h.start ==> !en)
    ensures var ins := Bring(reg, raw, en);
            var u := Step(Step(s, ins[0]), ins[1]);
            Still(u, h) && Has(u, reg, raw)
  {
    var ins := Bring(reg, raw, en);
    var t := Step(s, ins[0]);
    var u := Step(t, ins[1]);
    hide NextInbound, NextHost, NextFault, NextXfer, NextCpl, NextOut, NextMwr, NextStatus, Still;
    Decodes(s, reg, raw, en, t, u);
    StaysStill(s, h, ins[0], t);
    StaysStill(t, h, ins[1], u);
  }

  /** In between, no command is decoded and the engine is still. */
  lemma Between(s: Regs, h: Host, reg: nat, raw: u32, en: bool)
    requires Quiet(s) && Still(s, h) && Settled(h) && reg < 0x1000 && (h.start ==> !en)
    ensures var t := Step(s, Bring(reg, raw, en)[0]);
            Still(t, h) && t.inb.length == 0
  {
    var i := Bring(reg, raw, en)[0];
    var t := Step(s, i);
    hide NextHost, NextFault, NextXfer, NextCpl, NextOut, NextMwr, NextStatus, Still;
    StaysStill(s, h, i, t);
  }

  /** A legal edge with link up, TREADY high, no memory write under way and the FIFO unused. */
  predicate CalmEdge(c: Config, i: In) {
    && LegalEdge(c, i) && i.rstn && i.tready && c.s.mwr == MwrIdle
    && i.waterLevel == 0 && i.fifoEmpty && i.fifoWord == NO_WORD
  }

  /** Reached from reset by such edges. */
  ghost predicate Reached(c: Config) {
    exists ins :: Always(Next, START_CONFIG, ins, CalmEdge) && After(START_CONFIG, ins) == c
  }

  lemma ReachedNext(c: Config, i: In)
    requires Reached(c) && CalmEdge(c, i)
    ensures Reached(Next(c, i))
  {
    hide Step, NextHistory, CalmEdge;
    var ins :| Always(Next, START_CONFIG, ins, CalmEdge) && After(START_CONFIG, ins) == c;
    Snoc(Next, START_CONFIG, ins, i, CalmEdge);
  }

  lemma NoCommandIsLegal(s: Regs, i: In)
    requires s.inb.length == 0 && Link(i)
    ensures Legal(s, i)
  {
  }

  lemma CalmNext(c: Config, i: In)
    requires Reached(c) && c.s.inb.length == 0 && c.s.mwr == MwrIdle && Link(i)
    requires i.rstn && i.tready && i.waterLevel == 0 && i.fifoEmpty && i.fifoWord == NO_WORD
    ensures Reached(Next(c, i))
  {
    hide Step, NextHistory, Reached;
    NoCommandIsLegal(c.s, i);
    ReachedNext(c, i);
  }

  /** A write on its way in, from a reached configuration. */
  lemma Brought(c: Config, h: Host, reg: nat, raw: u32, en: bool) returns (d: Config)
    requires Reached(c) && Quiet(c.s) && Still(c.s, h) && Settled(h) && reg < 0x1000 && (h.start ==> !en)
    ensures Reached(d) && Still(d.s, h) && Has(d.s, reg, raw)
  {
    var ins := Bring(reg, raw, en);
    var m := Next(c, ins[0]);
    hide Step, NextHistory, Reached;
    Arrives(c.s, h, reg, raw, en);
    Between(c.s, h, reg, raw, en);
    CalmNext(c, ins[0]);
    CalmNext(m, ins[1]);
    d := Next(m, ins[1]);
  }

  /** What the decoder makes of a write on a still engine. */
  function Handled(h: Host, reg: nat, w: u32): Host {
    if reg == ARM_REG && w == ARM_MAGIC then
      Host(0, 0, 0, 0, 0, false, false, false, true, false, false, false, false, false)
    else if reg == LEN_REG && h.arm then h.(len := w, done := false, lenError := w != FRAME_BYTES)
    else if reg == ADDR_REG && h.arm then h.(addr0 := w, addrError := w == 0 || w % 64 != 0)
    else if FrameFits(h.addr0, h.len) then
      h.(start := true, startSeen := true, activeAddr := h.addr0, activeLen := h.len, bytesSent := 0,
         done := false, addrError := false, lenError := false)
    else
      h.(start := false, startSeen := true, lenError := h.len != FRAME_BYTES,
         addrError := h.addr0 == 0 || h.addr0 % 64 != 0 || h.addr0 + h.len > TWO32)
  }

  /** An address and a length that START accepts. */
  predicate FrameFits(a: u32, l: u32) { a != 0 && a % 64 == 0 && l == FRAME_BYTES && a + l <= TWO32 }

  /** The writes the example uses, each with the state it needs. */
  predicate Proper(h: Host, reg: nat, w: u32) {
    && !h.stopFlag && !h.stopPending && !h.stopAck && !h.start
    && (|| (reg == ARM_REG && w == ARM_MAGIC)
        || (reg in {LEN_REG, ADDR_REG} && h.arm)
        || (reg == START_REG && h.arm && w != 0))
  }

  lemma HandlesWrite(s: Regs, h: Host, reg: nat, raw: u32)
    requires Still(s, h) && Has(s, reg, raw) && Proper(h, reg, Swab32(raw))
    ensures NextHost(s, Beat(true, false, 0, 0)) == Handled(h, reg, Swab32(raw))
  {
    hide Swab32;
  }

  lemma Done(c: Config, h: Host, reg: nat, raw: u32) returns (d: Config)
    requires Reached(c) && Still(c.s, h) && Has(c.s, reg, raw) && Proper(h, reg, Swab32(raw))
    ensures Reached(d) && Quiet(d.s) && Still(d.s, Handled(h, reg, Swab32(raw)))
  {
    var i := Beat(true, false, 0, 0);
    HandlesWrite(c.s, h, reg, raw);
    HandlesStill(c.s, h, i, Step(c.s, i));
    OrderlyHostIsLegal(c.s, i);
    hide Swab32, NextHost, NextFault, NextXfer, NextCpl, NextOut, NextMwr, NextStatus, NextHistory, Reached;
    ReachedNext(c, i);
    d := Next(c, i);
  }

  lemma SwabbedWrites()
    ensures Swab32(ARM_MAGIC) == ARM_MAGIC && Swab32(0x0100_0000) == 1
  {
    assert ByteOf(ARM_MAGIC, 0) == 0xA5 && ByteOf(ARM_MAGIC, 1) == 0x5A;
    assert ByteOf(ARM_MAGIC, 2) == 0x5A && ByteOf(ARM_MAGIC, 3) == 0xA5;
    var g: u32 := 0x0100_0000;
    assert ByteOf(g, 0) == 0 && ByteOf(g, 1) == 0 && ByteOf(g, 2) == 0 && ByteOf(g, 3) == 1;
  }

  lemma OneWrite(c: Config, h: Host, reg: nat, raw: u32) returns (d: Config)
    requires Reached(c) && Quiet(c.s) && Still(c.s, h) && Proper(h, reg, Swab32(raw))
    ensures Reached(d) && Quiet(d.s) && Still(d.s, Handled(h, reg, Swab32(raw)))
  {
    hide Swab32, Reached;
    d := Brought(c, h, reg, raw, true);
    d := Done(d, h, reg, raw);
  }

  /** Good, and no memory write has been completed yet. */
  predicate Fresh(c: Config) { Good(c) && c.h.total == [] && c.h.missed == 0 }

  lemma FreshStep(s: Regs, h: History, i: In, g: History)
    requires h.total == [] && h.missed == 0 && !MwrTlast(s, i) && g == NextHistory(s, h, i)
    ensures g.total == [] && g.missed == 0
  {
  }

  lemma ReachedIsFresh(c: Config)
    requires Reached(c)
    ensures Fresh(c)
  {
    var ins :| Always(Next, START_CONFIG, ins, CalmEdge) && After(START_CONFIG, ins) == c;
    hide Step, NextHistory, Good, Legal;
    StartIsGood();
    forall d, i | Fresh(d) && CalmEdge(d, i) ensures Fresh(Next(d, i)) {
      GoodStep(d, i);
      FreshStep(d.s, d.h, i, NextHistory(d.s, d.h, i));
    }
    Keeps(Next, Fresh, CalmEdge, START_CONFIG, ins);
  }

  lemma StartReached()
    ensures Reached(START_CONFIG) && Quiet(START_CONFIG.s) && Still(START_CONFIG.s, HOST_RESET)
  {
    var none: seq<In> := [];
    assert Always(Next, START_CONFIG, none, CalmEdge) && After(START_CONFIG, none) == START_CONFIG;
  }

  // ---------------------------------------------------------------- started

  const ARMED := Handled(HOST_RESET, ARM_REG, ARM_MAGIC)

  function ProgrammedAt(a: u32, l: u32): Host { Handled(Handled(ARMED, ADDR_REG, a), LEN_REG, l) }

  function StartedAt(a: u32): Host { Handled(ProgrammedAt(a, FRAME_BYTES), START_REG, 1) }

  lemma StartedHost(a: u32)
    requires FrameFits(a, FRAME_BYTES)
    ensures ARMED == Host(0, 0, 0, 0, 0, false, false, false, true, false, false, false, false, false)
    ensures StartedAt(a) ==
      Host(a, FRAME_BYTES, a, FRAME_BYTES, 0, false, false, false, true, true, true, false, false, false)
  {
  }

  /** From reset: ARM, address `a`, length `l` and START. */
  lemma Sequence(a: u32, l: u32) returns (c: Config)
    ensures Reached(c) && Quiet(c.s) && Still(c.s, Handled(ProgrammedAt(a, l), START_REG, 1))
  {
    SwabbedWrites();
    SwabInvolution(a);
    SwabInvolution(l);
    hide Swab32, Reached;
    StartReached();
    c := START_CONFIG;
    c := OneWrite(c, HOST_RESET, ARM_REG, ARM_MAGIC);
    c := OneWrite(c, ARMED, ADDR_REG, Swab32(a));
    c := OneWrite(c, Handled(ARMED, ADDR_REG, a), LEN_REG, Swab32(l));
    c := OneWrite(c, ProgrammedAt(a, l), START_REG, 0x0100_0000);
  }

  lemma Started(a: u32) returns (c: Config)
    requires FrameFits(a, FRAME_BYTES)
    ensures Reached(c) && Quiet(c.s) && Still(c.s, StartedAt(a))
  {
    hide Reached, Handled;
    c := Sequence(a, FRAME_BYTES);
  }

  /** After these four writes, for every address and every length: the engine is started, and for
      them, exactly when a frame of that length fits there; and the error bits say what is wrong. */
  lemma StartedExactly(a: u32, l: u32) returns (c: Config)
    ensures Reached(c)
    ensures c.s.host.start <==> a != 0 && a % 64 == 0 && l == FRAME_BYTES && a + FRAME_BYTES <= TWO32
    ensures c.s.host.start ==> c.s.host.activeAddr == a && c.s.host.activeLen == l
    ensures !c.s.host.start ==>
              && (c.s.host.lenError <==> l != FRAME_BYTES)
              && (c.s.host.addrError <==> a == 0 || a % 64 != 0 || a + l > TWO32)
    ensures c.s.host.start ==> !c.s.host.addrError && !c.s.host.lenError
  {
    hide Reached;
    c := Sequence(a, l);
  }

  // ---------------------------------------------------------------- the way to the first TLP

  /** A frame for address `a` is under way and no TLP of it has been completed. */
  predicate Running(s: Regs, h: Host, a: u32) {
    && s.host == h && !s.cpl.pending && s.cpl.state == CplIdle
    && s.xfer.rc && s.xfer.cnt == 0 && s.out.alloc == a
  }

  /** Before the first TLP. */
  predicate Waiting(s: Regs, h: Host, a: u32, fram: bool, dmaStart: bool) {
    && Running(s, h, a) && s.mwr == MwrIdle && s.xfer.fram == fram && s.xfer.dmaStart == dmaStart
    && !s.out.tvalid && s.out.lenCnt == 0 && !s.out.preRead && !s.out.rdEn
  }

  /** In the HEADER state; the header is `offered` in its second cycle only. */
  predicate AtHeader(s: Regs, h: Host, a: u32, offered: bool) {
    && Running(s, h, a) && s.mwr == MwrHeader && s.xfer.fram && s.xfer.dmaStart
    && s.out.tvalid == offered && !s.out.tlast && s.out.lenCnt == 0 && s.out.preRead && s.out.rdEn
    && (offered ==> s.out.tdata == Request(RequestHeader(a)))
  }

  /** In the DATA state with `k` payload beats loaded. */
  predicate AtData(s: Regs, h: Host, a: u32, k: nat) {
    && Running(s, h, a) && s.mwr == MwrData && s.xfer.fram && s.xfer.dmaStart
    && k <= 4 && s.out.lenCnt == k && s.out.tvalid && (s.out.tlast <==> k == 4) && (s.out.rdEn <==> k < 4)
    && (k == 0 ==> s.out.tdata == Request(RequestHeader(a)))
  }

  predicate Flows(i: In) { i.rstn && i.linkUp && i.dmaEnable }

  predicate EngineEdge(s: Regs, i: In, t: Regs) {
    && t.host == NextHost(s, i) && t.xfer == NextXfer(s, i) && t.cpl == NextCpl(s, i)
    && t.out == NextOut(s, i) && t.mwr == NextMwr(s, i)
  }

  /** `rc_cfg_ep_flag` rises for a START, whether or not an ARM is handled at the same edge. */
  lemma Rises(s: Regs, a: u32, i: In, t: Regs)
    requires FrameFits(a, FRAME_BYTES)
    requires Still(s, StartedAt(a)) && Flows(i) && EngineEdge(s, i, t)
    requires s.inb.length == 0 || Has(s, ARM_REG, ARM_MAGIC)
    ensures Waiting(t, if s.inb.length == 0 then StartedAt(a) else ARMED, a, false, false)
  {
    hide Swab32, Handled, ProgrammedAt, StartedAt;
    StartedHost(a);
    SwabbedWrites();
  }

  /** One cycle before the first TLP: the frame begins as VS falls, and the transfer once the FIFO
      holds five words. */
  lemma Waits(s: Regs, h: Host, a: u32, fram: bool, i: In, t: Regs)
    requires Waiting(s, h, a, fram, false) && Settled(h) && Flows(i)
    requires s.inb.length == 0 && EngineEdge(s, i, t)
    ensures Waiting(t, h, a, fram || FrameBegins(s), fram && i.waterLevel >= 5)
  {
  }

  lemma Begins(s: Regs, h: Host, a: u32, i: In, t: Regs)
    requires Waiting(s, h, a, true, true) && Settled(h) && Flows(i) && i.tready
    requires s.inb.length == 0 && EngineEdge(s, i, t)
    ensures AtHeader(t, h, a, false)
  {
  }

  /** TREADY low in HEADER: the header is put on offer and the state is kept. */
  lemma HeaderStalls(s: Regs, h: Host, a: u32, i: In, t: Regs)
    requires AtHeader(s, h, a, false) && Settled(h) && Flows(i) && !i.tready
    requires s.inb.length == 0 && EngineEdge(s, i, t)
    ensures AtHeader(t, h, a, true)
  {
  }

  lemma HeaderGoes(s: Regs, h: Host, a: u32, offered: bool, i: In, t: Regs)
    requires AtHeader(s, h, a, offered) && Settled(h) && Flows(i) && i.tready
    requires s.inb.length == 0 && EngineEdge(s, i, t)
    ensures AtData(t, h, a, 0)
  {
  }

  lemma BeatGoes(s: Regs, h: Host, a: u32, k: nat, i: In, t: Regs)
    requires AtData(s, h, a, k) && k < 4 && Settled(h) && Flows(i) && i.tready
    requires s.inb.length == 0 && EngineEdge(s, i, t)
    ensures AtData(t, h, a, k + 1) && t.out.tdata == Payload(SwabQuad(i.fifoWord))
  {
  }
}
