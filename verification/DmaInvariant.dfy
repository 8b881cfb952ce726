/** What every reachable register state of the engine satisfies, and the history that the
    statements about whole runs need: which beats and which memory-write TLPs were accepted. */
module DmaInvariant {
  import opened Words
  import opened DmaEngine

  // ---------------------------------------------------------------- accepted traffic

  /** One output beat that was accepted (TVALID and TREADY both high). */
  datatype OutBeat = OutBeat(data: OutData, last: bool)

  /** The accepted beats of one memory write whose TLAST was accepted. `stalled` records that
      TREADY was low in the first cycle of the HEADER state. */
  datatype Tlp = Tlp(beats: seq<OutBeat>, stalled: bool)

  /** `cur`: beats of the TLP under way. `frame`: TLPs since `rc_cfg_ep_flag` last rose.
      `total` and `missed`: TLPs since BYTES_SENT was last cleared, and how many of them ended in
      a cycle in which the decoder handled something else. `dropped`: DMA enable was low at some
      edge since START was last accepted. */
  datatype History = History(
    cur: seq<OutBeat>, stalled: bool,
    frame: seq<Tlp>, total: seq<Tlp>, missed: nat, dropped: bool)

  const NO_HISTORY := History([], false, [], [], 0, true)

  function AcceptedBeats(s: Regs, h: History, i: In): seq<OutBeat> {
    if TxFire(s, i) && s.mwr != MwrIdle then h.cur + [OutBeat(s.out.tdata, s.out.tlast)] else h.cur
  }

  /** The memory write completed by an edge at which `MwrTlast` holds. */
  function FinishedTlp(s: Regs, h: History, i: In): Tlp {
    Tlp(AcceptedBeats(s, h, i), h.stalled)
  }

  predicate RcRises(s: Regs, i: In) { !s.xfer.rc && !XferReset(s, i) && RcSet(s) }

  predicate HostCleared(s: Regs, i: In) {
    !i.rstn || !i.linkUp || HostEventOf(s, i).ArmOk? || HostEventOf(s, i).StartOk?
  }

  function NextHistory(s: Regs, h: History, i: In): History {
    var tlp := FinishedTlp(s, h, i);
    var tlast := MwrTlast(s, i);
    History(
      if NextMwr(s, i) == MwrIdle then [] else AcceptedBeats(s, h, i),
      if s.mwr == MwrHeader && !s.out.tvalid then !i.tready else h.stalled,
      if RcRises(s, i) then [] else if tlast then h.frame + [tlp] else h.frame,
      if HostCleared(s, i) then [] else if tlast then h.total + [tlp] else h.total,
      if HostCleared(s, i) then 0
      else if tlast && !HostEventOf(s, i).TlpDone? then h.missed + 1
      else h.missed,
      if i.rstn && i.linkUp && HostEventOf(s, i).StartOk? then false else h.dropped || !i.dmaEnable)
  }

  // ---------------------------------------------------------------- the environment

  /** ARM, or a START for another buffer, is accepted at the very edge at which
      `rc_cfg_ep_flag` rises for an earlier START. */
  predicate Race(s: Regs, i: In) {
    && RcRises(s, i)
    && (|| HostEventOf(s, i).ArmOk?
        || (HostEventOf(s, i).StartOk? && s.host.addr0 != s.host.activeAddr))
  }

  /** `pcie_dma_enable` is gated by `pcie_link_up` (ddr_test_top.v:1070-1071). */
  predicate Link(i: In) { i.dmaEnable ==> i.linkUp }

  predicate Legal(s: Regs, i: In) { Link(i) && !Race(s, i) }

  // ---------------------------------------------------------------- register invariant

  predicate ActiveValid(s: Regs) {
    && s.host.activeAddr != 0 && s.host.activeAddr % 64 == 0
    && s.host.activeLen == FRAME_BYTES
    && s.host.activeAddr + FRAME_BYTES <= TWO32
  }

  /** The two state machines exclude each other and sit inside the transfer flags. */
  predicate Machines(s: Regs) {
    && (s.mwr != MwrIdle ==> s.xfer.dmaStart && s.cpl.state == CplIdle)
    && (s.xfer.dmaStart ==> s.xfer.fram)
    && (s.xfer.fram ==> s.xfer.rc)
  }

  predicate HostFlags(s: Regs) {
    var h := s.host;
    && (h.activeLen == 0 || h.activeLen == FRAME_BYTES)
    && (h.start || h.done || s.xfer.rc ==> ActiveValid(s))
    && (h.start ==> h.arm && !h.stopPending)
    && (h.done ==> !h.arm && !h.start && !s.xfer.rc)
  }

  predicate StopFlags(s: Regs) {
    var h := s.host;
    && (h.stopFlag ==> h.stopAck)
    && (h.stopAck ==> !h.arm && !h.start && !h.done && !h.stopPending && (h.stopFlag || !s.xfer.rc))
    && (h.stopAck ==> h.addr0 == 0 && h.len == 0)
    && (h.stopFlag ==> s.mwr != MwrData && (s.mwr == MwrHeader ==> !s.out.tvalid))
  }

  /** Where the next TLP goes. */
  predicate Position(s: Regs) {
    && (!s.xfer.rc ==> s.xfer.cnt == 0)
    && (s.xfer.rc ==> s.xfer.cnt < FRAME_TLPS && s.out.alloc == s.host.activeAddr + 64 * s.xfer.cnt)
  }

  predicate HeaderShown(s: Regs) {
    s.out.tvalid && !s.out.tlast && s.out.tdata == Request(RequestHeader(s.out.alloc))
  }

  predicate PayloadShown(s: Regs) { s.out.tvalid && s.out.tdata.Payload? }

  /** With the MWr machine idle, only completions are offered. */
  predicate IdleOutput(s: Regs) {
    s.mwr == MwrIdle && s.out.tvalid ==> s.out.tdata.Completion? || s.out.tdata.CompletionHeader?
  }

  /** The output registers before and in the HEADER state. */
  predicate HeaderOutput(s: Regs) {
    && (s.xfer.rc && s.mwr != MwrData ==> s.out.lenCnt == 0)
    && (s.mwr == MwrHeader ==> !s.out.tlast && (s.out.tvalid ==> HeaderShown(s)))
  }

  /** The output registers in the DATA state. */
  predicate DataOutput(s: Regs) {
    s.mwr == MwrData ==>
      && s.out.lenCnt <= 4
      && (if s.out.lenCnt == 0 then HeaderShown(s) else PayloadShown(s))
      && (s.out.tlast <==> s.out.lenCnt == 4)
  }

  /** A decoded command is always followed by a cycle without one. */
  predicate Decoder(s: Regs) {
    s.inb.length != 0 ==> s.inb.valid1
  }

  predicate RegsOk(s: Regs) {
    && Machines(s) && HostFlags(s) && StopFlags(s) && Position(s)
    && IdleOutput(s) && HeaderOutput(s) && DataOutput(s) && Decoder(s)
  }

  lemma ResetOk()
    ensures RegsOk(RESET)
  {
  }

  lemma LimitIsFrame(s: Regs)
    requires ActiveValid(s)
    ensures TlpLimit(s) == FRAME_TLPS
  {
  }

  // ---------------------------------------------------------------- every edge keeps it
  // Each lemma names only the registers its part of the invariant reads.

  lemma MachinesStep(s: Regs, i: In, t: Regs)
    requires Machines(s) && Link(i)
    requires t.mwr == NextMwr(s, i) && t.xfer == NextXfer(s, i) && t.cpl == NextCpl(s, i)
    ensures Machines(t)
  {
  }

  /** While a frame is in progress nothing changes the active address or length. */
  lemma ActiveKept(s: Regs, i: In, t: Regs)
    requires Machines(s) && HostFlags(s) && Legal(s, i)
    requires t.host == NextHost(s, i) && t.xfer == NextXfer(s, i) && t.xfer.rc
    ensures t.host.activeAddr == s.host.activeAddr && t.host.activeLen == s.host.activeLen
    ensures ActiveValid(s)
  {
  }

  lemma HostFlagsStep(s: Regs, i: In, t: Regs)
    requires Machines(s) && HostFlags(s) && Legal(s, i)
    requires t.host == NextHost(s, i) && t.xfer == NextXfer(s, i)
    ensures HostFlags(t)
  {
    if t.xfer.rc {
      ActiveKept(s, i, t);
    }
  }

  lemma StopFlagsStep(s: Regs, i: In, t: Regs)
    requires Machines(s) && HostFlags(s) && StopFlags(s) && Link(i)
    requires t.host == NextHost(s, i) && t.xfer == NextXfer(s, i)
    requires t.mwr == NextMwr(s, i) && t.out == NextOut(s, i)
    ensures StopFlags(t)
  {
  }

  lemma PositionStep(s: Regs, i: In, t: Regs)
    requires Machines(s) && HostFlags(s) && StopFlags(s) && Position(s) && DataOutput(s) && Legal(s, i)
    requires t.host == NextHost(s, i) && t.xfer == NextXfer(s, i) && t.out == NextOut(s, i)
    ensures Position(t)
  {
    if t.xfer.rc {
      ActiveKept(s, i, t);
      LimitIsFrame(s);
    }
  }

  lemma IdleOutputStep(s: Regs, i: In, t: Regs)
    requires Machines(s) && DataOutput(s) && Link(i)
    requires t.mwr == NextMwr(s, i) && t.out == NextOut(s, i)
    ensures IdleOutput(t)
  {
  }

  lemma HeaderOutputStep(s: Regs, i: In, t: Regs)
    requires Machines(s) && HostFlags(s) && StopFlags(s) && HeaderOutput(s) && DataOutput(s) && Link(i)
    requires t.xfer == NextXfer(s, i) && t.mwr == NextMwr(s, i) && t.out == NextOut(s, i)
    ensures HeaderOutput(t)
  {
  }

  lemma DataOutputStep(s: Regs, i: In, t: Regs)
    requires Machines(s) && HeaderOutput(s) && DataOutput(s) && Link(i)
    requires t.mwr == NextMwr(s, i) && t.out == NextOut(s, i)
    ensures DataOutput(t)
  {
  }

  lemma DecoderStep(s: Regs, i: In, t: Regs)
    requires t.inb == NextInbound(s, i)
    ensures Decoder(t)
  {
  }

  lemma RegsOkStep(s: Regs, i: In)
    requires RegsOk(s) && Legal(s, i)
    ensures RegsOk(Step(s, i))
  {
    var t := Step(s, i);
    MachinesStep(s, i, t);
    HostFlagsStep(s, i, t);
    StopFlagsStep(s, i, t);
    PositionStep(s, i, t);
    IdleOutputStep(s, i, t);
    HeaderOutputStep(s, i, t);
    DataOutputStep(s, i, t);
    DecoderStep(s, i, t);
  }
}
