/** What the engine guarantees over every run from reset. */
module DmaTheorems {
  import opened Words
  import opened DmaEngine
  import opened DmaInvariant
  import opened DmaHistory
  import opened Runs

  // ---------------------------------------------------------------- addresses

  /** The rules section 2.2.7 of the PCI Express Base Specification sets for a 32-bit memory
      write of more than one dword. */
  predicate WellFormedWrite(h: MemWriteHeader) {
    && h.fmt == 2 && h.typ == 0 && 1 < h.length <= 1024
    && h.firstBe != 0 && h.lastBe != 0
    && h.addr % 4 == 0
    && h.addr / 4096 == (h.addr + 4 * h.length - 1) / 4096
  }

  lemma PageOf(q: int, r: int)
    requires 0 <= r < 64
    ensures (4096 * q + 64 * r) / 4096 == q && (4096 * q + 64 * r + 63) / 4096 == q
    ensures (4096 * q + 64 * r) % 4 == 0
  {
  }

  lemma Split64(n: int)
    ensures n == 64 * (n / 64) + n % 64 && 0 <= n % 64 < 64
  {
  }

  lemma SameFourKPage(a: int)
    requires 0 <= a && a % 64 == 0
    ensures a / 4096 == (a + 63) / 4096 && a % 4 == 0
  {
    Split64(a);
    Split64(a / 64);
    var (q, r) := (a / 64 / 64, a / 64 % 64);
    PageOf(q, r);
    Linear(a, a / 64, q, r);
  }

  lemma Linear(a: int, b: int, q: int, r: int)
    requires a == 64 * b && b == 64 * q + r
    ensures a == 4096 * q + 64 * r
  {
  }

  lemma RequestWellFormed(a: u32)
    requires a % 64 == 0
    ensures WellFormedWrite(RequestHeader(a))
  {
    SameFourKPage(a);
  }

  lemma SlotOfFrame(base: int, n: nat)
    requires 0 <= base && base % 64 == 0 && base + FRAME_BYTES <= TWO32 && n < FRAME_TLPS
    ensures var a := base + 64 * n;
            a % 64 == 0 && base <= a && a + 64 <= base + FRAME_BYTES
  {
  }

  lemma OfferedHeader(s: Regs)
    requires RegsOk(s) && s.out.tvalid && s.out.tdata.Request?
    ensures s.xfer.rc && ActiveValid(s) && s.out.tdata.header == RequestHeader(s.out.alloc)
    ensures s.xfer.cnt < FRAME_TLPS && s.out.alloc == s.host.activeAddr + 64 * s.xfer.cnt
  {
  }

  /** All bytes of the four payload beats are enabled. */
  predicate WritesWhole(h: MemWriteHeader) { 4 * h.length == TLP_BYTES && h.firstBe == 0xf && h.lastBe == 0xf }

  /** Header `h` is that of the TLP number `n` of a frame at `base`, and a legal request. */
  predicate HeaderInside(h: MemWriteHeader, base: u32, n: nat) {
    && n < FRAME_TLPS && h.addr == base + 64 * n && h.addr % 64 == 0
    && base <= h.addr && h.addr + 64 <= base + FRAME_BYTES <= TWO32
    && WellFormedWrite(h) && WritesWhole(h)
  }

  lemma SlotHeaderInside(base: u32, n: nat)
    requires base % 64 == 0 && base + FRAME_BYTES <= TWO32 && n < FRAME_TLPS
    ensures HeaderInside(RequestHeader(base + 64 * n), base, n)
  {
    SlotOfFrame(base, n);
    RequestWellFormed(base + 64 * n);
  }

  lemma OfferedInside(s: Regs)
    requires RegsOk(s) && s.out.tvalid && s.out.tdata.Request?
    ensures HeaderInside(s.out.tdata.header, s.host.activeAddr, s.xfer.cnt)
  {
    OfferedHeader(s);
    SlotHeaderInside(s.host.activeAddr, s.xfer.cnt);
  }

  /** Every request header ever offered, accepted or not. */
  lemma HeadersStayInside(c: Config)
    requires Good(c) && c.s.out.tvalid && c.s.out.tdata.Request?
    ensures HeaderInside(c.s.out.tdata.header, c.s.host.activeAddr, c.s.xfer.cnt)
  {
    OfferedInside(c.s);
  }

  // ---------------------------------------------------------------- a finished frame

  function TlpAddr(t: Tlp): int {
    if t.beats != [] && t.beats[0].data.Request? then t.beats[0].data.header.addr else 0
  }

  /** How many of `tlps` write byte `b`. */
  function Writers(tlps: seq<Tlp>, b: int): nat {
    if tlps == [] then 0
    else
      var a := TlpAddr(tlps[|tlps| - 1]);
      Writers(tlps[..|tlps| - 1], b) + (if a <= b < a + TLP_BYTES then 1 else 0)
  }

  lemma {:induction false} TilesWriteOnce(tlps: seq<Tlp>, base: u32, b: int)
    requires TilesFrom(tlps, base)
    ensures Writers(tlps, b) == if base <= b < base + 64 * |tlps| then 1 else 0
  {
    if tlps != [] {
      var n := |tlps| - 1;
      assert TlpAt(tlps[n], base + 64 * n);
      TilesWriteOnce(tlps[..n], base, b);
    }
  }

  predicate Quiescent(s: Regs) {
    !s.xfer.rc && !s.xfer.fram && !s.xfer.dmaStart && !s.host.start && s.mwr == MwrIdle
  }

  /** DONE: since `rc_cfg_ep_flag` last rose the whole frame went out, in order, every byte of it
      written by exactly one TLP and nothing else written, and the engine has come to rest. */
  lemma DoneMeansWholeFrame(c: Config)
    requires Good(c) && c.s.host.done
    ensures |c.h.frame| == FRAME_TLPS && TilesFrom(c.h.frame, c.s.host.activeAddr)
    ensures forall b :: Writers(c.h.frame, b) ==
              if c.s.host.activeAddr <= b < c.s.host.activeAddr + FRAME_BYTES then 1 else 0
    ensures Quiescent(c.s)
  {
    forall b
      ensures Writers(c.h.frame, b) ==
              if c.s.host.activeAddr <= b < c.s.host.activeAddr + FRAME_BYTES then 1 else 0
    {
      TilesWriteOnce(c.h.frame, c.s.host.activeAddr, b);
    }
  }

  // ---------------------------------------------------------------- BYTES_SENT

  /** `sent` is 64 times the `total` TLPs less the `missed` ones, in 32-bit arithmetic: it never
      overstates, and short of a wrap it is exact just when none was missed. */
  predicate BytesExact(sent: u32, total: nat, missed: nat) {
    && missed <= total
    && sent == 64 * (total - missed) % TWO32
    && sent <= 64 * total
    && (total < 0x400_0000 ==> (sent == 64 * total <==> missed == 0))
  }

  lemma CountedBytes(sent: u32, total: nat, missed: nat)
    requires missed <= total && sent == 64 * (total - missed) % TWO32
    ensures BytesExact(sent, total, missed)
  {
    Mod32(64 * (total - missed));
  }

  lemma GoodBytes(s: Regs, h: History)
    requires BytesOk(s, h)
    ensures BytesExact(s.host.bytesSent, |h.total|, h.missed)
  {
    CountedBytes(s.host.bytesSent, |h.total|, h.missed);
  }

  /** BYTES_SENT against the TLPs accepted since it was cleared. A TLP is missed when the decoder
      handles a command in its TLAST cycle. */
  lemma BytesSentExactly(c: Config)
    requires Good(c)
    ensures BytesExact(c.s.host.bytesSent, |c.h.total|, c.h.missed)
  {
    GoodBytes(c.s, c.h);
  }

  /** The decoder is about to handle one of the four commands that go before the TLAST branch. */
  predicate Preempted(s: Regs) {
    || IsWriteTo(s, STOP_REG)
    || IsWriteTo(s, ARM_REG)
    || (IsWriteTo(s, ADDR_REG) && CmdData(s) == 0)
    || (IsWriteTo(s, START_REG) && s.host.arm && CmdData(s) != 0)
  }

  /** A TLAST cycle is lost to the byte counter exactly when it is preempted. */
  lemma PreemptedExactly(s: Regs, i: In)
    requires RegsOk(s) && MwrTlast(s, i)
    ensures !HostEventOf(s, i).TlpDone? <==> Preempted(s)
  {
    hide Swab32;
  }

  predicate CleanTlast(c: Config, i: In) { i.rstn && MwrTlast(c.s, i) ==> !Preempted(c.s) }

  /** After this edge BYTES_SENT is the bytes of the TLPs accepted since it was cleared. */
  predicate KeepsCount(c: Config, i: In) {
    Next(c, i).s.host.bytesSent == 64 * |Next(c, i).h.total| % TWO32
  }

  lemma OneShort(n: nat)
    requires n >= 1
    ensures 64 * (n - 1) % TWO32 != 64 * n % TWO32
  {
    AddMod32(64 * (n - 1), 64);
  }

  lemma MissedStep(s: Regs, h: History, i: In, g: History)
    requires RegsOk(s) && Link(i) && h.missed == 0 && g == NextHistory(s, h, i)
    ensures if CleanTlast(Config(s, h), i) then g.missed == 0 else g.missed == 1 && |g.total| >= 1
  {
    if MwrTlast(s, i) {
      PreemptedExactly(s, i);
    }
    hide Preempted, IsWriteTo;
  }

  lemma CountStep(c: Config, i: In)
    requires Good(c) && c.h.missed == 0 && LegalEdge(c, i)
    ensures Good(Next(c, i)) && (KeepsCount(c, i) <==> CleanTlast(c, i))
    ensures CleanTlast(c, i) ==> Next(c, i).h.missed == 0
  {
    hide Step, NextHistory, RegsOk, CleanTlast, Race;
    var d := Next(c, i);
    GoodStep(c, i);
    assert CleanTlast(c, i) == CleanTlast(Config(c.s, c.h), i);
    MissedStep(c.s, c.h, i, d.h);
    assert BytesOk(d.s, d.h);
    if d.h.missed == 1 {
      OneShort(|d.h.total|);
    }
  }

  lemma {:induction false} CountRun(c: Config, ins: seq<In>)
    requires Good(c) && c.h.missed == 0 && Always(Next, c, ins, LegalEdge)
    ensures Always(Next, c, ins, KeepsCount) <==> Always(Next, c, ins, CleanTlast)
    ensures Always(Next, c, ins, CleanTlast) ==> Good(After(c, ins)) && After(c, ins).h.missed == 0
    decreases |ins|
  {
    if ins != [] {
      CountStep(c, ins[0]);
      hide Next, Good, CleanTlast, KeepsCount, LegalEdge;
      if CleanTlast(c, ins[0]) {
        CountRun(Next(c, ins[0]), ins[1..]);
      }
    }
  }

  lemma DoneTotal(c: Config)
    requires Good(c) && c.h.missed == 0
    ensures c.s.host.done && !c.h.dropped ==>
              c.h.total == c.h.frame && c.s.host.bytesSent == FRAME_BYTES
  {
  }

  /** Over every legal run from reset, BYTES_SENT is right after every edge exactly when no TLAST
      cycle is preempted; and then a finished frame reports its full size, if DMA enable was held
      since START. */
  lemma BytesTrueExactly(ins: seq<In>)
    requires Always(Next, START_CONFIG, ins, LegalEdge)
    ensures Always(Next, START_CONFIG, ins, KeepsCount) <==> Always(Next, START_CONFIG, ins, CleanTlast)
    ensures var c := After(START_CONFIG, ins);
            Always(Next, START_CONFIG, ins, CleanTlast) && c.s.host.done && !c.h.dropped ==>
              c.h.total == c.h.frame && c.s.host.bytesSent == FRAME_BYTES
  {
    StartIsGood();
    hide Next, LegalEdge, KeepsCount, CleanTlast, Good;
    CountRun(START_CONFIG, ins);
    if Always(Next, START_CONFIG, ins, CleanTlast) {
      DoneTotal(After(START_CONFIG, ins));
    }
  }

  /** A register read is invisible to the command decoder and to transfer control. */
  lemma ReadsChangeNothing(s: Regs, i: In, quiet: Regs)
    requires IsRead(s) && quiet == s.(inb := s.inb.(length := 0))
    ensures NextHost(s, i) == NextHost(quiet, i) && NextXfer(s, i) == NextXfer(quiet, i)
  {
    hide Swab32;
    assert HostEventOf(s, i) == HostEventOf(quiet, i);
  }

  // ---------------------------------------------------------------- beats of one TLP

  /** `t` is a write of the 64 bytes at `addr`, and is the five beats its length field announces
      exactly when TREADY was high as HEADER was entered; otherwise its header came twice. */
  predicate WriteOf(t: Tlp, addr: int) {
    && TlpAt(t, addr)
    && (|t.beats| == 1 + TLP_DWORDS / 4 <==> !t.stalled)
    && (|t.beats| == 2 + TLP_DWORDS / 4 <==> t.stalled)
  }

  lemma FrameTlp(s: Regs, h: History, k: nat)
    requires FrameOk(s, h) && (s.xfer.rc || s.host.done) && k < |h.frame|
    ensures WriteOf(h.frame[k], s.host.activeAddr + 64 * k)
  {
    assert TlpAt(h.frame[k], s.host.activeAddr + 64 * k);
  }

  /** Whatever the stalls, a TLP is accepted as its header copies and four payload beats with
      TLAST on the last. */
  lemma BeatsOfFrameTlp(c: Config, k: nat)
    requires Good(c) && (c.s.xfer.rc || c.s.host.done) && k < |c.h.frame|
    ensures WriteOf(c.h.frame[k], c.s.host.activeAddr + 64 * k)
  {
    FrameTlp(c.s, c.h, k);
  }

  /** A legal edge at which TREADY is high if the HEADER state has just been entered. */
  predicate EntryReady(c: Config, i: In) {
    LegalEdge(c, i) && (c.s.mwr == MwrHeader && !c.s.out.tvalid ==> i.tready)
  }

  /** No TLP recorded or under way offered its header twice. */
  predicate NeverStalled(c: Config) {
    && (forall k | 0 <= k < |c.h.frame| :: !c.h.frame[k].stalled)
    && (c.s.mwr == MwrData || (c.s.mwr == MwrHeader && c.s.out.tvalid) ==> !c.h.stalled)
  }

  lemma NeverStalledStep(c: Config, i: In, d: Config)
    requires Machines(c.s) && HeaderOutput(c.s) && NeverStalled(c) && EntryReady(c, i)
    requires d.s.mwr == NextMwr(c.s, i) && d.s.out == NextOut(c.s, i) && d.h == NextHistory(c.s, c.h, i)
    ensures NeverStalled(d)
  {
  }

  predicate GoodUnstalled(c: Config) { Good(c) && NeverStalled(c) }

  lemma ReadyEntriesNeverStall(c: Config, ins: seq<In>)
    requires Good(c) && NeverStalled(c) && Always(Next, c, ins, EntryReady)
    ensures NeverStalled(After(c, ins))
  {
    forall d, i | GoodUnstalled(d) && EntryReady(d, i) ensures GoodUnstalled(Next(d, i)) {
      NeverStalledStep(d, i, Next(d, i));
      GoodStep(d, i);
    }
    Keeps(Next, GoodUnstalled, EntryReady, c, ins);
  }

  // ---------------------------------------------------------------- STOP

  predicate MwrOffered(s: Regs) { s.mwr != MwrIdle && s.out.tvalid }

  /** Once its header is offered a TLP stays on offer until its TLAST is accepted; only losing
      DMA enable (or reset) cuts it, STOP never does. */
  lemma OnlyBusMasterLossCuts(c: Config, i: In)
    requires Good(c) && Legal(c.s, i)
    requires MwrOffered(c.s) && !MwrTlast(c.s, i)
    ensures MwrOffered(Next(c, i).s) <==> i.rstn && i.dmaEnable
  {
    OfferedStep(c.s, i, Step(c.s, i));
  }

  lemma OfferedStep(s: Regs, i: In, t: Regs)
    requires Machines(s) && HostFlags(s) && StopFlags(s) && DataOutput(s) && HeaderOutput(s) && Link(i)
    requires t.mwr == NextMwr(s, i) && t.out == NextOut(s, i)
    requires MwrOffered(s) && !MwrTlast(s, i)
    ensures MwrOffered(t) <==> i.rstn && i.dmaEnable
  {
  }

  /** The decoder acts on `ev` at this edge. */
  predicate Accepts(s: Regs, i: In, ev: HostEvent) { i.rstn && i.linkUp && HostEventOf(s, i) == ev }

  predicate AcceptsAt(c: Config, ins: seq<In>, k: nat, ev: HostEvent)
    requires k < |ins|
  {
    Accepts(After(c, ins[..k]).s, ins[k], ev)
  }

  /** The write that an accepted ARM is: the magic, to an idle engine. */
  predicate MagicWritten(s: Regs) { IsWriteTo(s, ARM_REG) && CmdData(s) == ARM_MAGIC && Idle(s) }

  /** The write that an accepted START is: non-zero, to an armed idle engine with a frame's range. */
  predicate StartWritten(s: Regs) {
    IsWriteTo(s, START_REG) && CmdData(s) != 0 && s.host.arm && RangeValid(s) && Idle(s)
  }

  predicate MagicAt(c: Config, ins: seq<In>, k: nat)
    requires k < |ins|
  {
    AcceptsAt(c, ins, k, ArmOk) && MagicWritten(After(c, ins[..k]).s)
  }

  predicate StartAt(c: Config, ins: seq<In>, k: nat)
    requires k < |ins|
  {
    AcceptsAt(c, ins, k, StartOk) && StartWritten(After(c, ins[..k]).s) && ins[k].dmaEnable
  }

  lemma AcceptedWrites(s: Regs, i: In)
    ensures Accepts(s, i, ArmOk) ==> MagicWritten(s)
    ensures Accepts(s, i, StartOk) ==> StartWritten(s) && i.dmaEnable
  {
  }

  predicate NoStart(c: Config, i: In) { !Accepts(c.s, i, StartOk) }

  predicate NoArm(c: Config, i: In) { !Accepts(c.s, i, ArmOk) }

  /** Nothing can start from here before a START is accepted. */
  predicate Parked(c: Config) { !c.s.host.start && (c.s.host.stopFlag || !c.s.xfer.rc) }

  predicate Unarmed(c: Config) { !c.s.host.arm }

  lemma ParkedStep(c: Config, i: In, d: Config)
    requires Parked(c) && d.s.host == NextHost(c.s, i) && d.s.xfer == NextXfer(c.s, i)
    ensures Parked(d) || Accepts(c.s, i, StartOk)
  {
  }

  lemma UnarmedStep(c: Config, i: In, d: Config)
    requires Unarmed(c) && d.s.host == NextHost(c.s, i)
    ensures Unarmed(d) || Accepts(c.s, i, ArmOk)
  {
  }

  lemma UnarmedRefusesStart(c: Config, i: In)
    requires Unarmed(c)
    ensures !Accepts(c.s, i, StartOk)
  {
  }

  lemma ParkedOffersNothing(c: Config)
    requires Good(c) && Parked(c)
    ensures !MwrOffered(c.s)
  {
  }

  lemma ParkedRun(c: Config, ins: seq<In>)
    requires Parked(c) && Always(Next, c, ins, NoStart)
    ensures Parked(After(c, ins))
  {
    forall d, i | Parked(d) && NoStart(d, i) ensures Parked(Next(d, i)) {
      ParkedStep(d, i, Next(d, i));
    }
    Keeps(Next, Parked, NoStart, c, ins);
  }

  lemma UnarmedRun(c: Config, ins: seq<In>)
    requires Unarmed(c) && Always(Next, c, ins, NoArm)
    ensures Unarmed(After(c, ins))
  {
    forall d, i | Unarmed(d) && NoArm(d, i) ensures Unarmed(Next(d, i)) {
      UnarmedStep(d, i, Next(d, i));
    }
    Keeps(Next, Unarmed, NoArm, c, ins);
  }

  /** STOP_ACK: not armed, not started, nothing on offer. */
  lemma StopAckMeansStopped(c: Config)
    requires Good(c) && c.s.host.stopAck
    ensures !c.s.host.arm && !c.s.host.start && !c.s.host.done && !MwrOffered(c.s) && Parked(c)
    ensures c.s.host.addr0 == 0 && c.s.host.len == 0
  {
    ParkedOffersNothing(c);
  }

  /** A decoded ARM write that is not taken: not the magic, or not to an idle engine. */
  predicate ArmRefused(s: Regs, i: In) {
    && i.rstn && i.linkUp && IsWriteTo(s, ARM_REG) && !MagicWritten(s)
    && !(s.host.stopPending && TxPacketIdle(s))
  }

  /** It disarms: no START is accepted again before an ARM with the magic is. */
  lemma RefusedArmDisarms(c: Config, i: In, ins: seq<In>, k: nat) returns (j: nat)
    requires ArmRefused(c.s, i) && k < |ins| && AcceptsAt(Next(c, i), ins, k, StartOk)
    ensures j < k && MagicAt(Next(c, i), ins, j)
  {
    j := ArmBefore(Next(c, i), ins, k);
  }

  lemma StartSomewhere(c: Config, ins: seq<In>) returns (k: nat)
    requires Good(c) && Parked(c) && Always(Next, c, ins, LegalEdge) && MwrOffered(After(c, ins).s)
    ensures k < |ins| && StartAt(c, ins, k)
  {
    if Always(Next, c, ins, NoStart) {
      ParkedRun(c, ins);
      GoodRun(c, ins);
      ParkedOffersNothing(After(c, ins));
      assert false;
    }
    k := FailsSomewhere(Next, c, ins, NoStart);
    AcceptedWrites(After(c, ins[..k]).s, ins[k]);
  }

  lemma ArmBefore(c: Config, ins: seq<In>, k: nat) returns (j: nat)
    requires Unarmed(c) && k < |ins| && AcceptsAt(c, ins, k, StartOk)
    ensures j < k && MagicAt(c, ins, j)
  {
    hide Next, MagicWritten, NextHost, Step, HostEventOf;
    var before := ins[..k];
    if Always(Next, c, before, NoArm) {
      UnarmedRun(c, before);
      UnarmedRefusesStart(After(c, before), ins[k]);
      assert false;
    }
    j := FailsSomewhere(Next, c, before, NoArm);
    assert before[..j] == ins[..j];
    AcceptedWrites(After(c, ins[..j]).s, ins[j]);
  }

  /** After STOP_ACK a memory-write beat is on offer again only if an ARM with the magic and then a
      START, for a range that fits, have been accepted in between. */
  lemma QuietAfterStopAck(c: Config, ins: seq<In>)
    requires Good(c) && c.s.host.stopAck && Always(Next, c, ins, LegalEdge)
    requires MwrOffered(After(c, ins).s)
    ensures exists j, k | 0 <= j < k < |ins| :: MagicAt(c, ins, j) && StartAt(c, ins, k)
  {
    StopAckMeansStopped(c);
    var k := StartSomewhere(c, ins);
    var j := ArmBefore(c, ins, k);
  }

  // ---------------------------------------------------------------- the two state machines

  /** Never both machines busy, and only payload ends a write. */
  predicate MachinesApart(s: Regs, i: In) {
    && (s.mwr == MwrIdle || s.cpl.state == CplIdle)
    && (MwrTlast(s, i) ==> s.out.tdata.Payload? && s.out.lenCnt == 4)
    && (s.out.tvalid && s.out.tdata.Completion? ==> s.mwr == MwrIdle)
  }

  lemma ApartFromParts(s: Regs, i: In)
    requires Machines(s) && HeaderOutput(s) && DataOutput(s)
    ensures MachinesApart(s, i)
  {
  }

  /** The machines are never both busy, and a completion's TLAST is never taken for a write's. */
  lemma MachinesExclude(c: Config, i: In)
    requires Good(c)
    ensures MachinesApart(c.s, i)
  {
    ApartFromParts(c.s, i);
  }

  // ---------------------------------------------------------------- FIFO faults

  /** The sticky fault bits are neither reset nor cleared by an ARM. */
  predicate Sticks(c: Config, i: In) { i.rstn && i.linkUp && !ArmCmdAccept(c.s) }

  predicate ReadsAWord(c: Config, i: In) { c.s.out.rdEn ==> !i.fifoEmpty }

  /** FULL, two synchroniser edges old, does not meet a frame being captured. */
  predicate HasRoom(c: Config, i: In) { c.s.inb.full1 ==> !c.s.xfer.capture }

  /** The fault bits say exactly whether, since they were clear, the FIFO was read empty or was full
      during capture. */
  lemma {:induction false} FaultsExactly(c: Config, ins: seq<In>)
    requires Always(Next, c, ins, Sticks)
    ensures var f := After(c, ins).s.fault;
            && (!f.underflow <==> !c.s.fault.underflow && Always(Next, c, ins, ReadsAWord))
            && (!f.overflow <==> !c.s.fault.overflow && Always(Next, c, ins, HasRoom))
    decreases |ins|
  {
    if ins != [] {
      FaultEdge(c, ins[0]);
      hide Next, Sticks, ReadsAWord, HasRoom;
      FaultsExactly(Next(c, ins[0]), ins[1..]);
    }
  }

  lemma FaultEdge(c: Config, i: In)
    requires Sticks(c, i)
    ensures var f := Next(c, i).s.fault;
            && (!f.underflow <==> !c.s.fault.underflow && ReadsAWord(c, i))
            && (!f.overflow <==> !c.s.fault.overflow && HasRoom(c, i))
  {
    hide NextInbound, NextHost, NextXfer, NextCpl, NextOut, NextMwr, NextStatus, NextHistory, ArmCmdAccept;
  }

  /** So also from any edge that clears them on, an ARM with the magic among them, taken or not. */
  lemma FaultsSinceClear(c: Config, i: In, ins: seq<In>)
    requires !Sticks(c, i) && Always(Next, Next(c, i), ins, Sticks)
    ensures var f := After(Next(c, i), ins).s.fault;
            && (!f.underflow <==> Always(Next, Next(c, i), ins, ReadsAWord))
            && (!f.overflow <==> Always(Next, Next(c, i), ins, HasRoom))
  {
    FaultClears(c, i);
    hide Next, Sticks, ReadsAWord, HasRoom;
    FaultsExactly(Next(c, i), ins);
  }

  lemma FaultClears(c: Config, i: In)
    requires !Sticks(c, i)
    ensures Next(c, i).s.fault == Fault(false, false)
  {
    hide NextInbound, NextHost, NextXfer, NextCpl, NextOut, NextMwr, NextStatus, NextHistory, ArmCmdAccept;
  }

  /** The frame goes on at this edge. */
  predicate FrameGoesOn(c: Config, i: In) { !XferReset(c.s, i) && !(MwrTlast(c.s, i) && FinalTlp(c.s)) }

  /** The delayed vertical sync does not rise. */
  predicate NoSync(c: Config, i: In) { !(c.s.inb.vs0 && !c.s.inb.vs1) }

  /** Capture, in which a full FIFO is a fault, lasts from a frame's begin to the next sync. */
  lemma {:induction false} CaptureExactly(c: Config, ins: seq<In>)
    requires c.s.xfer.fram && Always(Next, c, ins, FrameGoesOn)
    ensures var x := After(c, ins).s.xfer; x.fram && (x.capture <==> c.s.xfer.capture && Always(Next, c, ins, NoSync))
    decreases |ins|
  {
    if ins != [] {
      CaptureEdge(c, ins[0]);
      hide Next, FrameGoesOn, NoSync;
      CaptureExactly(Next(c, ins[0]), ins[1..]);
    }
  }

  lemma CaptureEdge(c: Config, i: In)
    requires c.s.xfer.fram && FrameGoesOn(c, i)
    ensures var x := Next(c, i).s.xfer; x.fram && (x.capture <==> c.s.xfer.capture && NoSync(c, i))
  {
    hide NextInbound, NextHost, NextFault, NextCpl, NextOut, NextMwr, NextStatus, NextHistory, RcSet, EnoughWords;
  }

  /** A frame begins with capture on. */
  lemma BeginsCapturing(c: Config, i: In)
    requires Good(c) && !c.s.xfer.fram && FrameGoesOn(c, i) && Next(c, i).s.xfer.fram
    ensures Next(c, i).s.xfer.capture && !c.s.inb.vs0 && c.s.inb.vs1
  {
    hide NextInbound, NextHost, NextFault, NextCpl, NextOut, NextMwr, NextStatus, NextHistory, RcSet, EnoughWords;
    hide HistoryOk;
  }

  /** `full1` is the FULL input of two edges before. */
  lemma FullIsSeen(c: Config, i: In, j: In)
    requires i.rstn && i.linkUp && j.rstn && j.linkUp
    ensures Next(Next(c, i), j).s.inb.full1 == i.fifoFull
  {
    hide NextHost, NextXfer, NextCpl, NextOut, NextMwr, NextStatus, NextHistory, NextFault;
  }

  // ---------------------------------------------------------------- the one excluded edge

  /** The register invariant survives an edge exactly when the edge is not a race. */
  lemma InvariantBreaksExactlyOnRace(s: Regs, i: In)
    requires RegsOk(s) && Link(i)
    ensures RegsOk(Step(s, i)) <==> !Race(s, i)
  {
    if Race(s, i) {
      RaceBreaks(s, i, Step(s, i));
    } else {
      RegsOkStep(s, i);
    }
  }

  lemma RaceBreaks(s: Regs, i: In, t: Regs)
    requires RegsOk(s) && Race(s, i)
    requires t.host == NextHost(s, i) && t.xfer == NextXfer(s, i) && t.out == NextOut(s, i)
    ensures t.xfer.rc && !(HostFlags(t) && Position(t))
  {
  }

  /** DMA enable implies link and is high while a START is pending or its frame is under way. */
  predicate BusMasterHeld(c: Config, i: In) { Link(i) && (c.s.host.start ==> i.dmaEnable) }

  /** A started engine has seen DMA enable ever since. */
  predicate GoodHeld(c: Config) { Good(c) && (c.s.host.start ==> !c.h.dropped) }

  lemma HeldStep(s: Regs, h: History, i: In, t: Regs, g: History)
    requires RiseOk(s, h) && BusMasterHeld(Config(s, h), i) && (s.host.start ==> !h.dropped)
    requires t.host == NextHost(s, i) && g == NextHistory(s, h, i)
    ensures Legal(s, i) && (t.host.start ==> !g.dropped)
  {
  }

  /** Holding DMA enable from START on is enough to exclude the race, whatever else the host
      writes and whenever it does. */
  lemma {:induction false} HeldRunsAreLegal(c: Config, ins: seq<In>)
    requires GoodHeld(c) && Always(Next, c, ins, BusMasterHeld)
    ensures Always(Next, c, ins, LegalEdge) && GoodHeld(After(c, ins))
    decreases |ins|
  {
    if ins != [] {
      var d := Next(c, ins[0]);
      HeldStep(c.s, c.h, ins[0], d.s, d.h);
      GoodStep(c, ins[0]);
      HeldRunsAreLegal(d, ins[1..]);
    }
  }

  /** So is a host that writes ARM and START only while no START is pending. */
  lemma OrderlyHostIsLegal(s: Regs, i: In)
    requires Link(i)
    requires IsWriteTo(s, ARM_REG) || IsWriteTo(s, START_REG) ==> !s.host.start
    ensures Legal(s, i)
  {
  }
}
