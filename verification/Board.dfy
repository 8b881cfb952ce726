/** The engine on its bus: host memory as its memory writes change it, the Bus Master bit, and the
    facts that stay true while the host only reads registers. */
module Board {
  import opened Words
  import opened HostMemory
  import opened Runs
  import opened DmaEngine
  import opened DmaInvariant
  import opened DmaHistory
  import opened DmaTheorems
  import DriverLog

  // ---------------------------------------------------------------- memory

  function Dword(q: Quad, k: nat): u32 {
    if k == 0 then q.q0 else if k == 1 then q.q1 else if k == 2 then q.q2 else q.q3
  }

  /** Byte `j` of the 64 that a write TLP carries: the dwords travel most significant byte first. */
  function TlpByte(t: Tlp, j: nat): byte
    requires j < TLP_BYTES
  {
    var k := HeaderCopies(t.stalled) + j / 16;
    if k < |t.beats| && t.beats[k].data.Payload? then
      ByteOf(Swab32(Dword(t.beats[k].data.quad, j % 16 / 4)), j % 4)
    else 0
  }

  function WriteTlp(m: Mem, t: Tlp): Mem {
    (x: int) => if TlpAddr(t) <= x < TlpAddr(t) + TLP_BYTES then TlpByte(t, x - TlpAddr(t)) else m(x)
  }

  function WriteAll(m: Mem, ts: seq<Tlp>): Mem {
    if ts == [] then m else WriteTlp(WriteAll(m, ts[..|ts| - 1]), ts[|ts| - 1])
  }

  lemma {:induction false} TiledContents(m: Mem, ts: seq<Tlp>, base: u32, x: int)
    requires TilesFrom(ts, base)
    ensures WriteAll(m, ts)(x) ==
            if base <= x < base + 64 * |ts| then TlpByte(ts[(x - base) / 64], (x - base) % 64) else m(x)
  {
    if ts != [] {
      var n := |ts| - 1;
      assert TlpAt(ts[n], base + 64 * n);
      TiledContents(m, ts[..n], base, x);
      if base + 64 * n <= x < base + 64 * n + 64 {
        Slot(x - base, n);
      }
    }
  }

  lemma Slot(d: int, n: nat)
    requires 64 * n <= d < 64 * n + 64
    ensures d / 64 == n && d % 64 == d - 64 * n
  {
  }

  // ---------------------------------------------------------------- one edge

  /** `sent`: TLPs accepted since the host last filled memory, which then was `base`. */
  datatype Board = Board(c: Config, busMaster: bool, mem: Mem, base: Mem, sent: seq<Tlp>)

  function NextBoard(b: Board, i: In): Board {
    var d := Next(b.c, i);
    if MwrTlast(b.c.s, i) then
      var t := FinishedTlp(b.c.s, b.c.h, i);
      Board(d, b.busMaster, WriteTlp(b.mem, t), b.base, b.sent + [t])
    else b.(c := d)
  }

  /** No reset; DMA enable is Bus Master gated by the link (ddr_test_top.v:1070-1071); TREADY is
      high as HEADER is entered. */
  predicate BoardEdge(b: Board, i: In) {
    && i.rstn && i.dmaEnable == (b.busMaster && i.linkUp)
    && (b.c.s.mwr == MwrHeader && !b.c.s.out.tvalid ==> i.tready)
  }

  predicate QuietEdge(b: Board, i: In) { BoardEdge(b, i) && !IsWrite(b.c.s) }

  predicate WriteEdge(b: Board, i: In, reg: nat, v: u32) {
    BoardEdge(b, i) && IsWriteTo(b.c.s, reg) && CmdData(b.c.s) == v
  }

  function AfterQuiet(b: Board, ins: seq<In>): Board { RunFrom(NextBoard, b, ins) }

  predicate Quietly(b: Board, ins: seq<In>) { Always(NextBoard, b, ins, QuietEdge) }

  lemma BoardParts(b: Board, i: In)
    ensures var (s, d) := (b.c.s, NextBoard(b, i));
            && d.c.s.inb == NextInbound(s, i) && d.c.s.cpl == NextCpl(s, i)
            && d.busMaster == b.busMaster && d.base == b.base
  {
  }

  // ---------------------------------------------------------------- always

  /** The status register shows flags of the cycle before. */
  predicate StatusOk(s: Regs) {
    && (s.status == 0 || DriverLog.Version(s.status) == STATUS_VERSION)
    && (Bit(s.status, DriverLog.STOP_ACK) ==> !s.host.start && !s.host.done && (s.host.stopFlag || !s.xfer.rc))
  }

  ghost predicate BoardOk(b: Board) {
    Good(b.c) && NeverStalled(b.c) && StatusOk(b.c.s) && b.mem == WriteAll(b.base, b.sent)
  }

  lemma VersionedBits(flags: seq<bool>, w: u32, k: nat)
    requires |flags| == 16 && k < 16 && w == STATUS_VERSION * 0x100_0000 + Pack(flags)
    ensures Bit(w, k) == flags[k] && DriverLog.Version(w) == STATUS_VERSION
  {
    Pow2Of16();
    PackBit(flags, 0x0A00, k);
  }

  lemma StatusBits(s: Regs, en: bool, k: nat)
    requires k < 16
    ensures Bit(StatusWord(s, en), k) == StatusFlags(s, en)[k]
    ensures DriverLog.Version(StatusWord(s, en)) == STATUS_VERSION
  {
    VersionedBits(StatusFlags(s, en), StatusWord(s, en), k);
  }

  /** The driver's names for the status bits are the engine's flags. */
  lemma StatusBitsAgree(s: Regs, en: bool)
    ensures var w := StatusWord(s, en);
            && (Bit(w, DriverLog.BUSY) <==> Busy(s)) && (Bit(w, DriverLog.IDLE) <==> Idle(s))
            && (Bit(w, DriverLog.FRAME_DONE) <==> s.host.done) && (Bit(w, DriverLog.STOP_ACK) <==> s.host.stopAck)
            && (Bit(w, DriverLog.HOST_ARM) <==> s.host.arm) && (Bit(w, DriverLog.DMA_ENABLE) <==> en)
            && (Bit(w, DriverLog.ADDR_VALID) <==> AddrValid(s)) && (Bit(w, DriverLog.LEN_VALID) <==> LenValid(s))
            && (Bit(w, DriverLog.STOP_PENDING) <==> s.host.stopPending)
            && (Bit(w, DriverLog.START_CMD_SEEN) <==> s.host.startSeen)
            && (Bit(w, DriverLog.HOST_START) <==> s.host.start) && (Bit(w, DriverLog.RC_CFG_EP) <==> s.xfer.rc)
            && (DriverLog.ErrorFree(w) <==>
                  !s.host.addrError && !s.host.lenError && !s.fault.overflow && !s.fault.underflow)
  {
    hide StatusWord, Bit, Busy, Idle, AddrValid, LenValid;
    LowFlags(s, en);
    MiddleFlags(s, en);
    ErrorFlags(s, en);
    forall k: nat | k < 16
      ensures Bit(StatusWord(s, en), k) == StatusFlags(s, en)[k]
    {
      StatusBits(s, en, k);
    }
    hide StatusFlags;
  }

  lemma LowFlags(s: Regs, en: bool)
    ensures var f := StatusFlags(s, en);
            && f[0] == Busy(s) && f[1] == s.host.done && f[2] == Idle(s) && f[3] == s.host.stopAck
            && f[4] == s.host.arm && f[5] == s.host.startSeen
  {
    hide Busy, Idle, AddrValid, LenValid;
  }

  lemma MiddleFlags(s: Regs, en: bool)
    ensures var f := StatusFlags(s, en);
            && f[6] == AddrValid(s) && f[7] == LenValid(s) && f[8] == en && f[13] == s.host.stopPending
            && f[14] == s.host.start && f[15] == s.xfer.rc
  {
    hide Busy, Idle, AddrValid, LenValid;
  }

  lemma ErrorFlags(s: Regs, en: bool)
    ensures var f := StatusFlags(s, en);
            && f[9] == s.host.addrError && f[10] == s.host.lenError
            && f[11] == s.fault.overflow && f[12] == s.fault.underflow
  {
    hide Busy, Idle, AddrValid, LenValid;
  }

  lemma StatusStep(s: Regs, i: In, t: Regs)
    requires RegsOk(s) && Legal(s, i) && i.rstn
    requires t.host == NextHost(s, i) && t.xfer == NextXfer(s, i) && t.status == StatusWord(s, i.dmaEnable)
    ensures StatusOk(t)
  {
    StatusBits(s, i.dmaEnable, DriverLog.STOP_ACK);
  }

  lemma MemoryStep(b: Board, i: In)
    requires b.mem == WriteAll(b.base, b.sent)
    ensures NextBoard(b, i).mem == WriteAll(b.base, NextBoard(b, i).sent)
  {
    if MwrTlast(b.c.s, i) {
      assert NextBoard(b, i).sent[..|b.sent|] == b.sent;
    }
  }

  lemma BoardOkStep(b: Board, i: In)
    requires BoardOk(b) && BoardEdge(b, i) && Legal(b.c.s, i)
    ensures BoardOk(NextBoard(b, i))
  {
    GoodStep(b.c, i);
    NeverStalledStep(b.c, i, Next(b.c, i));
    StatusStep(b.c.s, i, Step(b.c.s, i));
    MemoryStep(b, i);
  }

  lemma QuietOk(b: Board, i: In)
    requires BoardOk(b) && QuietEdge(b, i)
    ensures BoardOk(NextBoard(b, i)) && Legal(b.c.s, i)
  {
    OrderlyHostIsLegal(b.c.s, i);
    BoardOkStep(b, i);
  }

  lemma QuietlyOk(b: Board, ins: seq<In>)
    requires BoardOk(b) && Quietly(b, ins)
    ensures BoardOk(AfterQuiet(b, ins)) && AfterQuiet(b, ins).busMaster == b.busMaster
    ensures AfterQuiet(b, ins).base == b.base
  {
    var inv := (d: Board) => BoardOk(d) && d.busMaster == b.busMaster && d.base == b.base;
    forall d, i | inv(d) && QuietEdge(d, i) ensures inv(NextBoard(d, i)) {
      QuietOk(d, i);
    }
    Keeps(NextBoard, inv, QuietEdge, b, ins);
  }

  // ---------------------------------------------------------------- at rest

  /** Stopped, nothing to deliver: no TLP can complete before a START is accepted. */
  predicate Calm(b: Board) { Parked(b.c) && !b.c.s.host.done }

  lemma CalmStep(b: Board, i: In, d: Board)
    requires RegsOk(b.c.s) && Calm(b) && i.rstn && Link(i)
    requires d.c.s.host == NextHost(b.c.s, i) && d.c.s.xfer == NextXfer(b.c.s, i)
    ensures !MwrTlast(b.c.s, i)
    ensures Calm(d) || Accepts(b.c.s, i, StartOk)
  {
  }

  lemma VersionOfBoard(b: Board)
    requires BoardOk(b)
    ensures b.c.s.status == 0 || DriverLog.Version(b.c.s.status) == STATUS_VERSION
  {
  }

  /** A status word that shows STOP_ACK was read on a calm board. */
  lemma AckedIsCalm(b: Board)
    requires BoardOk(b) && Bit(b.c.s.status, DriverLog.STOP_ACK)
    ensures Calm(b)
  {
  }

  lemma ParkedSendsNothing(b: Board, i: In, d: Board)
    requires RegsOk(b.c.s) && Parked(b.c) && i.rstn && Link(i)
    requires d.c.s.host == NextHost(b.c.s, i) && d.c.s.xfer == NextXfer(b.c.s, i)
    ensures !MwrTlast(b.c.s, i)
    ensures Parked(d.c) || Accepts(b.c.s, i, StartOk)
  {
  }

  lemma QuietAcceptsNothing(b: Board, i: In)
    requires QuietEdge(b, i)
    ensures !Accepts(b.c.s, i, StartOk)
  {
  }

  lemma QuietlyCalm(b: Board, ins: seq<In>)
    requires BoardOk(b) && Calm(b) && Quietly(b, ins)
    ensures Calm(AfterQuiet(b, ins)) && AfterQuiet(b, ins).sent == b.sent && AfterQuiet(b, ins).mem == b.mem
  {
    var inv := (d: Board) => BoardOk(d) && Calm(d) && d.sent == b.sent && d.mem == b.mem;
    forall d, i | inv(d) && QuietEdge(d, i) ensures inv(NextBoard(d, i)) {
      QuietOk(d, i);
      CalmStep(d, i, NextBoard(d, i));
      QuietAcceptsNothing(d, i);
    }
    Keeps(NextBoard, inv, QuietEdge, b, ins);
  }

  // ---------------------------------------------------------------- a frame delivered

  /** All that was sent since memory was filled is one whole frame at `a`, and no more will come
      without a START. */
  predicate Delivered(b: Board, a: u32) {
    Parked(b.c) && |b.sent| == FRAME_TLPS && TilesFrom(b.sent, a)
  }

  lemma QuietlyParked(b: Board, ins: seq<In>)
    requires BoardOk(b) && Parked(b.c) && Quietly(b, ins)
    ensures Parked(AfterQuiet(b, ins).c)
    ensures AfterQuiet(b, ins).mem == b.mem && AfterQuiet(b, ins).sent == b.sent
  {
    var inv := (d: Board) => BoardOk(d) && Parked(d.c) && d.mem == b.mem && d.sent == b.sent;
    forall d, i | inv(d) && QuietEdge(d, i) ensures inv(NextBoard(d, i)) {
      QuietOk(d, i);
      ParkedSendsNothing(d, i, NextBoard(d, i));
      QuietAcceptsNothing(d, i);
    }
    Keeps(NextBoard, inv, QuietEdge, b, ins);
  }

  // ---------------------------------------------------------------- a frame in flight

  /** Lost means that the link went down: the transfer registers have been cleared. */
  predicate DoneOrLost(s: Regs) { s.host.done || (s.host.activeLen == 0 && s.host.bytesSent == 0) }

  /** From an accepted START on, with Bus Master held: whatever is sent is this frame. */
  predicate Flight(b: Board) {
    var (s, h) := (b.c.s, b.c.h);
    && b.busMaster
    && (s.host.start || s.host.done || (s.xfer.rc && !s.host.stopFlag) ==>
          !h.dropped && h.missed == 0 && b.sent == h.total && !s.host.stopPending)
    && (Bit(s.status, DriverLog.FRAME_DONE) ==> DoneOrLost(s))
  }

  lemma FlightTrafficStep(s: Regs, h: History, sent: seq<Tlp>, i: In, t: Regs, g: History)
    requires RegsOk(s) && Link(i) && i.rstn && i.dmaEnable == i.linkUp && !IsWrite(s)
    requires t.host == NextHost(s, i) && t.xfer == NextXfer(s, i) && g == NextHistory(s, h, i)
    requires s.host.start || s.host.done || (s.xfer.rc && !s.host.stopFlag) ==>
               !h.dropped && h.missed == 0 && sent == h.total && !s.host.stopPending
    ensures var sent' := if MwrTlast(s, i) then sent + [FinishedTlp(s, h, i)] else sent;
            t.host.start || t.host.done || (t.xfer.rc && !t.host.stopFlag) ==>
              !g.dropped && g.missed == 0 && sent' == g.total && !t.host.stopPending
  {
  }

  lemma DoneStep(s: Regs, i: In, t: Regs)
    requires RegsOk(s) && i.rstn && !IsWrite(s) && (s.host.done ==> !s.host.stopPending)
    requires t.host == NextHost(s, i)
    ensures DoneOrLost(s) ==> DoneOrLost(t)
    ensures s.host.activeLen == 0 ==> t.host.activeLen == 0
    ensures t.host.activeAddr == s.host.activeAddr || t.host.activeLen == 0
  {
  }

  lemma FlightStep(b: Board, i: In)
    requires BoardOk(b) && Flight(b) && QuietEdge(b, i)
    ensures Flight(NextBoard(b, i))
  {
    var t := Step(b.c.s, i);
    FlightTrafficStep(b.c.s, b.c.h, b.sent, i, t, NextHistory(b.c.s, b.c.h, i));
    StatusBits(b.c.s, i.dmaEnable, DriverLog.FRAME_DONE);
    DoneStep(b.c.s, i, t);
  }

  /** The active address is still `a`, unless the link was lost. */
  predicate StillAt(s: Regs, a: u32) { s.host.activeAddr == a || s.host.activeLen == 0 }

  lemma QuietlyInFlight(b: Board, ins: seq<In>)
    requires BoardOk(b) && Flight(b) && Quietly(b, ins)
    ensures Flight(AfterQuiet(b, ins))
    ensures DoneOrLost(b.c.s) ==> DoneOrLost(AfterQuiet(b, ins).c.s)
    ensures b.c.s.host.activeLen == 0 ==> AfterQuiet(b, ins).c.s.host.activeLen == 0
    ensures StillAt(AfterQuiet(b, ins).c.s, b.c.s.host.activeAddr)
  {
    var inv := (d: Board) =>
      && BoardOk(d) && Flight(d) && (DoneOrLost(b.c.s) ==> DoneOrLost(d.c.s))
      && (b.c.s.host.activeLen == 0 ==> d.c.s.host.activeLen == 0)
      && StillAt(d.c.s, b.c.s.host.activeAddr);
    forall d, i | inv(d) && QuietEdge(d, i) ensures inv(NextBoard(d, i)) {
      QuietOk(d, i);
      FlightStep(d, i);
      DoneStep(d.c.s, i, Step(d.c.s, i));
    }
    Keeps(NextBoard, inv, QuietEdge, b, ins);
  }

  /** What passing time cannot undo while a frame is in flight. */
  ghost predicate Onward(b: Board, d: Board) {
    && (DoneOrLost(b.c.s) ==> DoneOrLost(d.c.s))
    && (b.c.s.host.activeLen == 0 ==> d.c.s.host.activeLen == 0)
    && StillAt(d.c.s, b.c.s.host.activeAddr)
    && (Parked(b.c) ==> Parked(d.c) && d.mem == b.mem && d.sent == b.sent)
  }

  lemma OnwardQuietly(b: Board, ins: seq<In>)
    requires BoardOk(b) && Flight(b) && Quietly(b, ins)
    ensures Flight(AfterQuiet(b, ins)) && Onward(b, AfterQuiet(b, ins))
  {
    hide BoardOk, Flight;
    QuietlyInFlight(b, ins);
    if Parked(b.c) {
      QuietlyParked(b, ins);
    }
  }

  lemma OnwardTrans(b: Board, d: Board, e: Board)
    requires Onward(b, d) && Onward(d, e)
    ensures Onward(b, e)
  {
  }

  lemma DoneOnward(b: Board, d: Board)
    requires Onward(b, d) && DoneOrLost(b.c.s)
    ensures DoneOrLost(d.c.s)
  {
  }

  lemma DeliveredOnward(b: Board, d: Board, a: u32)
    requires Onward(b, d) && Delivered(b, a)
    ensures Delivered(d, a)
  {
  }

  lemma DoneBitMeansDone(b: Board, status: u32)
    requires Flight(b) && status == b.c.s.status && DriverLog.AllSet(status, {DriverLog.FRAME_DONE, DriverLog.IDLE})
    ensures DoneOrLost(b.c.s)
  {
    assert DriverLog.FRAME_DONE in {DriverLog.FRAME_DONE, DriverLog.IDLE};
  }

  /** In flight and done: exactly the frame at the active address has been delivered. */
  lemma DoneInFlight(b: Board)
    requires BoardOk(b) && Flight(b) && b.c.s.host.done
    ensures Delivered(b, b.c.s.host.activeAddr) && ActiveValid(b.c.s) && b.c.s.host.bytesSent == FRAME_BYTES
  {
  }

  /** A transfer under way, or done, is for the address `a`. */
  predicate Aims(s: Regs, a: u32) {
    s.host.start || s.host.done || (s.xfer.rc && !s.host.stopFlag) ==> s.host.activeAddr == a
  }

  lemma AimStep(s: Regs, i: In, t: Regs, a: u32)
    requires RegsOk(s) && Link(i) && i.rstn && !IsWrite(s) && Aims(s, a)
    requires t.host == NextHost(s, i) && t.xfer == NextXfer(s, i)
    ensures Aims(t, a)
  {
  }

  lemma QuietlyAims(b: Board, ins: seq<In>, a: u32)
    requires BoardOk(b) && Quietly(b, ins) && Aims(b.c.s, a)
    ensures Aims(AfterQuiet(b, ins).c.s, a)
  {
    var inv := (d: Board) => BoardOk(d) && Aims(d.c.s, a);
    forall d, i | inv(d) && QuietEdge(d, i) ensures inv(NextBoard(d, i)) {
      QuietOk(d, i);
      AimStep(d.c.s, i, Step(d.c.s, i), a);
    }
    Keeps(NextBoard, inv, QuietEdge, b, ins);
  }

  /** Without a write the programmed address stays, or is cleared by a STOP or a lost link. */
  predicate Holds(s: Regs, a: u32) { s.host.addr0 == a || s.host.addr0 == 0 }

  lemma QuietlyHolds(b: Board, ins: seq<In>, a: u32)
    requires BoardOk(b) && Quietly(b, ins) && Holds(b.c.s, a)
    ensures Holds(AfterQuiet(b, ins).c.s, a)
  {
    var inv := (d: Board) => BoardOk(d) && Holds(d.c.s, a);
    forall d, i | inv(d) && QuietEdge(d, i) ensures inv(NextBoard(d, i)) {
      QuietOk(d, i);
      HoldStep(d.c.s, i, Step(d.c.s, i), a);
    }
    Keeps(NextBoard, inv, QuietEdge, b, ins);
  }

  lemma HoldStep(s: Regs, i: In, t: Regs, a: u32)
    requires !IsWrite(s) && Holds(s, a) && t.host == NextHost(s, i)
    ensures Holds(t, a)
  {
  }

  /** A START on a calm board aims at the programmed address. */
  lemma StartAims(s: Regs, i: In, t: Regs, a: u32)
    requires RegsOk(s) && Link(i) && i.rstn && IsWriteTo(s, START_REG) && Holds(s, a)
    requires !s.host.start && (s.host.stopFlag || !s.xfer.rc) && !s.host.done
    requires t.host == NextHost(s, i) && t.xfer == NextXfer(s, i)
    ensures Aims(t, a)
  {
  }

  /** What a quiet stretch keeps. */
  ghost predicate Kept(b: Board, d: Board, a: u32) {
    && d.busMaster == b.busMaster && d.base == b.base
    && (Parked(b.c) ==> Parked(d.c) && d.sent == b.sent && d.mem == b.mem)
    && (Calm(b) ==> Calm(d) && d.sent == b.sent && d.mem == b.mem)
    && (Holds(b.c.s, a) ==> Holds(d.c.s, a))
    && (Flight(b) ==> Flight(d))
    && (Aims(b.c.s, a) ==> Aims(d.c.s, a))
  }

  lemma KeptQuietly(b: Board, ins: seq<In>, a: u32)
    requires BoardOk(b) && Quietly(b, ins)
    ensures BoardOk(AfterQuiet(b, ins)) && Kept(b, AfterQuiet(b, ins), a)
  {
    hide BoardOk, Flight, Calm, Parked, Holds, Aims;
    QuietlyOk(b, ins);
    if Parked(b.c) {
      QuietlyParked(b, ins);
    }
    if Calm(b) {
      QuietlyCalm(b, ins);
    }
    if Holds(b.c.s, a) {
      QuietlyHolds(b, ins, a);
    }
    if Flight(b) {
      QuietlyInFlight(b, ins);
    }
    if Aims(b.c.s, a) {
      QuietlyAims(b, ins, a);
    }
  }

  // ---------------------------------------------------------------- the edge that handles a write

  /** A write other than START leaves a calm board calm. */
  lemma CalmWrite(b: Board, i: In, reg: nat, v: u32)
    requires BoardOk(b) && Calm(b) && WriteEdge(b, i, reg, v) && reg != START_REG
    ensures BoardOk(NextBoard(b, i)) && Calm(NextBoard(b, i))
    ensures NextBoard(b, i).sent == b.sent && NextBoard(b, i).mem == b.mem
  {
    OrderlyHostIsLegal(b.c.s, i);
    BoardOkStep(b, i);
    var d := NextBoard(b, i);
    assert d.c.s == Step(b.c.s, i);
    hide NextBoard, NextHost, NextXfer, NextOut, NextMwr, NextCpl, NextHistory, StatusOk;
    CalmStep(b, i, d);
    NothingWritten(b, i);
  }

  /** Without a completed TLP memory stays. */
  lemma NothingWritten(b: Board, i: In)
    requires !MwrTlast(b.c.s, i)
    ensures NextBoard(b, i).sent == b.sent && NextBoard(b, i).mem == b.mem
  {
  }

  /** STOP may come at any time. */
  lemma StopWrite(b: Board, i: In, v: u32)
    requires BoardOk(b) && WriteEdge(b, i, STOP_REG, v)
    ensures BoardOk(NextBoard(b, i))
    ensures Parked(b.c) ==> Parked(NextBoard(b, i).c) && NextBoard(b, i).sent == b.sent && NextBoard(b, i).mem == b.mem
  {
    OrderlyHostIsLegal(b.c.s, i);
    BoardOkStep(b, i);
    var d := NextBoard(b, i);
    assert d.c.s == Step(b.c.s, i);
    hide NextBoard, NextHost, NextXfer, NextOut, NextMwr, NextCpl, NextHistory, StatusOk;
    if Parked(b.c) {
      ParkedSendsNothing(b, i, d);
      NothingWritten(b, i);
    }
  }

  /** START on a calm board with memory freshly filled. */
  lemma StartWrite(b: Board, i: In, v: u32)
    requires BoardOk(b) && Calm(b) && b.sent == [] && b.busMaster && WriteEdge(b, i, START_REG, v)
    ensures BoardOk(NextBoard(b, i)) && Flight(NextBoard(b, i))
  {
    OrderlyHostIsLegal(b.c.s, i);
    BoardOkStep(b, i);
    var d := NextBoard(b, i);
    CalmStep(b, i, d);
    StatusBits(b.c.s, i.dmaEnable, DriverLog.FRAME_DONE);
    StartTraffic(b.c.s, b.c.h, i, d.c.s, d.c.h);
  }

  lemma StartWriteAims(b: Board, i: In, v: u32, a: u32)
    requires BoardOk(b) && Calm(b) && WriteEdge(b, i, START_REG, v) && Holds(b.c.s, a)
    ensures Aims(NextBoard(b, i).c.s, a)
  {
    var t := NextBoard(b, i).c.s;
    assert t == Step(b.c.s, i);
    hide NextBoard;
    OrderlyHostIsLegal(b.c.s, i);
    StartAims(b.c.s, i, t, a);
  }

  lemma StartTraffic(s: Regs, h: History, i: In, t: Regs, g: History)
    requires RegsOk(s) && !s.host.start && (s.host.stopFlag || !s.xfer.rc) && !s.host.done
    requires i.rstn && Link(i) && IsWriteTo(s, START_REG) && !MwrTlast(s, i)
    requires t.host == NextHost(s, i) && t.xfer == NextXfer(s, i) && g == NextHistory(s, h, i)
    ensures t.host.start || t.host.done || (t.xfer.rc && !t.host.stopFlag) ==>
              !g.dropped && g.missed == 0 && g.total == [] && !t.host.stopPending
  {
  }

  // ---------------------------------------------------------------- register accesses

  /** What a read of `reg` returns, as the engine captures it. */
  function RegValue(s: Regs, reg: nat): u32 { ReadMux(s.(inb := s.inb.(reg := reg))) }

  /** No command is waiting in the input pipeline. */
  predicate QuietBus(s: Regs) { s.inb.length == 0 && !s.inb.valid0 }

  /** A header beat on a quiet bus is decoded two edges later, with the payload beat behind it. */
  lemma Decoded(s: Regs, i: In, t: Regs, j: In, u: Regs, fmtType: nat, reg: nat, data: u32)
    requires QuietBus(s) && i.rstn && j.rstn && fmtType < 0x80 && reg < 0x1000
    requires t.inb == NextInbound(s, i) && u.inb == NextInbound(t, j)
    requires i.beatValid && i.beat == InBeat(fmtType * 0x100_0000 + 1, reg) && j.beat.dw0 == data
    ensures !IsWrite(s) && !IsWrite(t) && !IsRead(s) && !IsRead(t)
    ensures u.inb.fmtType == fmtType && u.inb.length == 1 && u.inb.reg == reg && u.inb.beat.dw0 == data
    ensures u.inb.valid1
  {
  }

  /** What a delivered frame leaves in memory. */
  lemma DeliveredContents(b: Board, a: u32, x: int)
    requires BoardOk(b) && Delivered(b, a)
    ensures a <= x < a + FRAME_BYTES ==> b.mem(x) == TlpByte(b.sent[(x - a) / 64], (x - a) % 64)
    ensures !(a <= x < a + FRAME_BYTES) ==> b.mem(x) == b.base(x)
  {
    TiledContents(b.base, b.sent, a, x);
  }

  /** Memory after one whole frame: its bytes are those of the frame's TLPs, and every other byte
      is as the host left it before START. */
  ghost predicate FrameReceived(b: Board, a: u32) {
    && Delivered(b, a)
    && (forall x | a <= x < a + FRAME_BYTES :: b.mem(x) == TlpByte(b.sent[(x - a) / 64], (x - a) % 64))
    && (forall x :: !(a <= x < a + FRAME_BYTES) ==> b.mem(x) == b.base(x))
  }

  lemma DeliveredIsReceived(b: Board, a: u32)
    requires BoardOk(b) && Delivered(b, a)
    ensures FrameReceived(b, a)
  {
    hide BoardOk, TlpByte, TilesFrom;
    assert |b.sent| == FRAME_TLPS;
    forall x
      ensures a <= x < a + FRAME_BYTES ==> b.mem(x) == TlpByte(b.sent[(x - a) / 64], (x - a) % 64)
      ensures !(a <= x < a + FRAME_BYTES) ==> b.mem(x) == b.base(x)
    {
      DeliveredContents(b, a, x);
    }
  }
}
