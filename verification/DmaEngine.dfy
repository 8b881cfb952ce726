/** The registers of `pcie_dma_ctrl.v`, one record per always block, and what each register
    becomes at a rising clock edge. Every equation reads the state before the edge only. */
module DmaEngine {
  import opened Words

  const ARM_REG: nat := 0x100
  const START_REG: nat := 0x104
  const LEN_REG: nat := 0x108
  const ADDR_REG: nat := 0x110
  const ADDR_ECHO0_REG: nat := 0x114
  const ADDR_ECHO1_REG: nat := 0x118
  const ADDR_ECHO2_REG: nat := 0x11c
  const ADDR_ECHO3_REG: nat := 0x120
  const STOP_REG: nat := 0x130
  const STATUS_REG: nat := 0x170
  const ACTIVE_ADDR_REG: nat := 0x174
  const ACTIVE_LEN_REG: nat := 0x178
  const BYTES_SENT_REG: nat := 0x17c

  const ARM_MAGIC: u32 := 0xA55A5AA5
  const FRAME_BYTES: u32 := 4147200
  const FRAME_TLPS: nat := 64800
  const TLP_BYTES: nat := 64
  const TLP_DWORDS: nat := 16
  const STATUS_VERSION: nat := 0x0A

  // ---------------------------------------------------------------- inputs and registers

  /** The part of one inbound 128-bit beat that the decoder looks at: dwords 0 and 2. */
  datatype InBeat = InBeat(dw0: u32, dw2: u32)

  /** One 128-bit FIFO word or payload beat, as four dwords. */
  datatype Quad = Quad(q0: u32, q1: u32, q2: u32, q3: u32)

  /** Everything the module samples at one rising edge of `clk`. */
  datatype In = In(
    rstn: bool, linkUp: bool, dmaEnable: bool, tready: bool, vs: bool,
    beatValid: bool, beat: InBeat,
    waterLevel: nat, fifoEmpty: bool, fifoFull: bool, fifoWord: Quad)

  datatype MwrState = MwrIdle | MwrHeader | MwrData
  datatype CplState = CplIdle | CplHeader | CplData

  /** A 32-bit memory write request header, field by field. */
  datatype MemWriteHeader = MemWriteHeader(
    fmt: nat, typ: nat, length: nat, lastBe: nat, firstBe: nat, tag: nat, addr: u32)

  /** What the 128 output data bits stand for. */
  datatype OutData =
    | Nothing
    | Request(header: MemWriteHeader)
    | Payload(quad: Quad)
    | CompletionHeader
    | Completion(value: u32)

  /** Input pipeline and TLP field registers. */
  datatype Inbound = Inbound(
    beat: InBeat, valid0: bool, valid1: bool,
    fmtType: nat, length: nat, reg: nat,
    vs0: bool, vs1: bool, full0: bool, full1: bool)

  /** The host command decoder's registers. */
  datatype Host = Host(
    addr0: u32, len: u32, activeAddr: u32, activeLen: u32, bytesSent: u32,
    stopFlag: bool, stopPending: bool, stopAck: bool,
    arm: bool, start: bool, startSeen: bool, done: bool,
    addrError: bool, lenError: bool)

  datatype Fault = Fault(overflow: bool, underflow: bool)

  /** Transfer control: `rc_cfg_ep_flag`, `dma_cnt`, `fram_start`, `capture_active`, `dma_start`. */
  datatype Xfer = Xfer(rc: bool, cnt: nat, fram: bool, capture: bool, dmaStart: bool)

  datatype Cpl = Cpl(pending: bool, data: u32, state: CplState)

  /** The AXI-Stream output register block. */
  datatype Out = Out(
    tvalid: bool, tlast: bool, tdata: OutData,
    lenCnt: nat, preRead: bool, rdEn: bool, alloc: u32)

  datatype Regs = Regs(
    inb: Inbound, host: Host, fault: Fault, xfer: Xfer, cpl: Cpl, out: Out,
    mwr: MwrState, status: u32)

  // ---------------------------------------------------------------- continuous assignments

  function CmdData(s: Regs): u32 { Swab32(s.inb.beat.dw0) }

  predicate IsWrite(s: Regs) { s.inb.fmtType == 0x40 && s.inb.length == 1 }

  predicate IsWriteTo(s: Regs, reg: nat) { IsWrite(s) && s.inb.reg == reg }

  predicate IsRead(s: Regs) { s.inb.fmtType == 0x00 && s.inb.length == 1 }

  function TlpLimit(s: Regs): nat { s.host.activeLen / 64 % 0x1_0000 }

  predicate AddrValid(s: Regs) { s.host.addr0 != 0 && s.host.addr0 % 64 == 0 }

  predicate LenValid(s: Regs) { s.host.len == FRAME_BYTES }

  predicate RangeValid(s: Regs) {
    AddrValid(s) && LenValid(s) && s.host.addr0 + s.host.len <= TWO32
  }

  predicate FinalTlp(s: Regs) { TlpLimit(s) != 0 && s.xfer.cnt == TlpLimit(s) - 1 }

  predicate Busy(s: Regs) {
    s.xfer.rc || s.xfer.fram || s.xfer.dmaStart || s.out.tvalid || s.mwr != MwrIdle
  }

  predicate Idle(s: Regs) { !Busy(s) && !s.host.stopPending }

  predicate MwrTxActive(s: Regs, i: In) {
    i.dmaEnable && s.xfer.fram && s.xfer.dmaStart && s.xfer.rc
  }

  predicate TxFire(s: Regs, i: In) { s.out.tvalid && i.tready }

  predicate MwrTlast(s: Regs, i: In) {
    TxFire(s, i) && s.out.tlast && MwrTxActive(s, i) && s.mwr == MwrData
  }

  predicate TxPacketIdle(s: Regs) { s.mwr == MwrIdle && !s.out.tvalid }

  predicate ArmCmdAccept(s: Regs) { IsWriteTo(s, ARM_REG) && CmdData(s) == ARM_MAGIC }

  // ---------------------------------------------------------------- what one edge means

  /** The single thing the host command decoder reacts to at an edge, in its priority order. */
  datatype HostEvent =
    | StopDone | StopCmd | ArmOk | ArmRejected | LenWrite | AddrWrite
    | StartOk | StartRejected | TlpDone | NoEvent

  function HostEventOf(s: Regs, i: In): HostEvent {
    if s.host.stopPending && TxPacketIdle(s) then StopDone
    else if IsWriteTo(s, STOP_REG) then StopCmd
    else if IsWriteTo(s, ARM_REG) then
      if CmdData(s) == ARM_MAGIC && Idle(s) then ArmOk else ArmRejected
    else if IsWriteTo(s, LEN_REG) && s.host.arm && !Busy(s) then LenWrite
    else if IsWriteTo(s, ADDR_REG) && ((s.host.arm && !Busy(s)) || CmdData(s) == 0) then AddrWrite
    else if IsWriteTo(s, START_REG) && s.host.arm && CmdData(s) != 0 then
      if RangeValid(s) && i.dmaEnable && Idle(s) then StartOk else StartRejected
    else if MwrTlast(s, i) then TlpDone
    else NoEvent
  }

  /** The output block's branches, in priority order. */
  datatype OutMode = OutReset | OutReload | OutCpl | OutMwr | OutQuiet

  function OutModeOf(s: Regs, i: In): OutMode {
    if !i.rstn || !i.linkUp || s.host.stopFlag then OutReset
    else if s.host.start && !s.xfer.rc then OutReload
    else if s.cpl.state != CplIdle then OutCpl
    else if MwrTxActive(s, i) then OutMwr
    else OutQuiet
  }

  // ---------------------------------------------------------------- next-state equations

  function NextInbound(s: Regs, i: In): Inbound {
    if !i.rstn then Inbound(InBeat(0, 0), false, false, 0, 0, 0, false, false, false, false)
    else
      var first := s.inb.valid0 && !s.inb.valid1;
      Inbound(
        i.beat, i.beatValid, s.inb.valid0,
        if first then s.inb.beat.dw0 / 0x100_0000 else 0,
        if first then s.inb.beat.dw0 % 0x400 else 0,
        if first then s.inb.beat.dw2 % 0x1000 else 0,
        i.vs, s.inb.vs0,
        i.linkUp && i.fifoFull, i.linkUp && s.inb.full0)
  }

  const HOST_RESET := Host(0, 0, 0, 0, 0, false, false, false, false, false, false, false, false, false)

  function NextHost(s: Regs, i: In): Host {
    if !i.rstn || !i.linkUp then HOST_RESET
    else
      var h := s.host;
      var ev := HostEventOf(s, i);
      var frameEnd := ev.TlpDone? && FinalTlp(s);
      Host(
        if ev.StopDone? || ev.ArmOk? then 0 else if ev.AddrWrite? then CmdData(s) else h.addr0,
        if ev.StopDone? || ev.ArmOk? then 0 else if ev.LenWrite? then CmdData(s) else h.len,
        if ev.ArmOk? then 0 else if ev.StartOk? then h.addr0 else h.activeAddr,
        if ev.ArmOk? then 0 else if ev.StartOk? then h.len else h.activeLen,
        if ev.ArmOk? || ev.StartOk? then 0 else if ev.TlpDone? then (h.bytesSent + 64) % TWO32 else h.bytesSent,
        ev.StopDone?,
        ev.StopCmd? || (h.stopPending && !(ev.StopDone? || ev.ArmOk?)),
        ev.StopDone? || (h.stopAck && !(ev.StopCmd? || ev.ArmOk?)),
        ev.ArmOk? || (h.arm && !(ev.StopDone? || ev.ArmRejected?) && !frameEnd),
        ev.StartOk?
        || (h.start && !frameEnd
            && !(ev.StopDone? || ev.StopCmd? || ev.ArmOk? || ev.ArmRejected? || ev.StartRejected?)),
        ev.StartOk? || ev.StartRejected?
        || (h.startSeen && !(ev.StopDone? || ev.ArmOk? || ev.ArmRejected?) && !frameEnd),
        frameEnd || (h.done && !(ev.StopDone? || ev.ArmOk? || ev.LenWrite? || ev.StartOk?)),
        if ev.ArmOk? || ev.StartOk? then false
        else if ev.AddrWrite? then CmdData(s) == 0 || CmdData(s) % 64 != 0
        else if ev.StartRejected? then !AddrValid(s) || h.addr0 + h.len > TWO32
        else h.addrError,
        if ev.ArmOk? || ev.StartOk? then false
        else if ev.LenWrite? then CmdData(s) != FRAME_BYTES
        else if ev.StartRejected? then !LenValid(s)
        else h.lenError)
  }

  function NextFault(s: Regs, i: In): Fault {
    if !i.rstn || !i.linkUp || ArmCmdAccept(s) then Fault(false, false)
    else Fault(
           s.fault.overflow || (s.inb.full1 && s.xfer.capture),
           s.fault.underflow || (s.out.rdEn && i.fifoEmpty))
  }

  /** `rc_cfg_ep_flag` is (re)asserted at this edge. */
  predicate RcSet(s: Regs) { s.host.start && RangeValid(s) && !s.host.stopPending }

  predicate FrameBegins(s: Regs) { !s.inb.vs0 && s.inb.vs1 && s.xfer.rc && !s.xfer.fram }

  predicate EnoughWords(s: Regs, i: In) {
    if s.xfer.cnt == 0 then i.waterLevel >= TLP_DWORDS / 4 + 1 else i.waterLevel >= TLP_DWORDS / 4
  }

  predicate XferReset(s: Regs, i: In) { !i.rstn || !i.linkUp || !i.dmaEnable || s.host.stopFlag }

  function NextXfer(s: Regs, i: In): Xfer {
    if XferReset(s, i) then Xfer(false, 0, false, false, false)
    else
      var x := s.xfer;
      var tlp := MwrTlast(s, i);
      var frameEnd := tlp && FinalTlp(s);
      Xfer(
        (x.rc || RcSet(s)) && !frameEnd,
        if frameEnd then 0 else if tlp then (x.cnt + 1) % 0x1_0000 else x.cnt,
        (x.fram || FrameBegins(s)) && !frameEnd,
        (x.capture || FrameBegins(s)) && !frameEnd && !(s.inb.vs0 && !s.inb.vs1 && x.capture),
        if tlp then false
        else if x.rc && x.fram && !s.host.stopPending && EnoughWords(s, i) then true
        else x.dmaStart && !FrameBegins(s))
  }

  /** The register file as a read request sees it. The three unused slots are never written. */
  function ReadMux(s: Regs): u32 {
    if s.inb.reg == ADDR_ECHO0_REG then s.host.addr0
    else if s.inb.reg == STATUS_REG then s.status
    else if s.inb.reg == ACTIVE_ADDR_REG then s.host.activeAddr
    else if s.inb.reg == ACTIVE_LEN_REG then s.host.activeLen
    else if s.inb.reg == BYTES_SENT_REG then s.host.bytesSent
    else 0
  }

  function NextCpl(s: Regs, i: In): Cpl {
    if !i.rstn || !i.linkUp then Cpl(false, 0, CplIdle)
    else
      var take := IsRead(s) && !s.cpl.pending;
      Cpl(
        take || (s.cpl.pending && !(s.cpl.state == CplData && i.tready)),
        if take then ReadMux(s) else s.cpl.data,
        match s.cpl.state
        case CplIdle => if s.cpl.pending && !MwrTxActive(s, i) && i.tready then CplHeader else CplIdle
        case CplHeader => if i.tready then CplData else CplHeader
        case CplData => if i.tready then CplIdle else CplData)
  }

  function RequestHeader(addr: u32): MemWriteHeader {
    MemWriteHeader(2, 0, TLP_DWORDS, 0xf, 0xf, 1, addr)
  }

  /** Each dword of a FIFO word leaves with its bytes reversed. */
  function SwabQuad(q: Quad): Quad {
    Quad(Swab32(q.q0), Swab32(q.q1), Swab32(q.q2), Swab32(q.q3))
  }

  function NextOut(s: Regs, i: In): Out {
    var o := s.out;
    match OutModeOf(s, i)
    case OutReset => Out(false, false, Nothing, 0, false, false, 0)
    case OutReload => Out(false, false, o.tdata, 0, false, false, s.host.activeAddr)
    case OutQuiet => o.(tvalid := false, tlast := false, tdata := Nothing, rdEn := false)
    case OutCpl =>
      var data := s.cpl.state == CplData;
      o.(tvalid := true, tlast := data, rdEn := false,
         tdata := if data then Completion(Swab32(s.cpl.data)) else CompletionHeader)
    case OutMwr =>
      match s.mwr
      case MwrIdle =>
        o.(tvalid := false, tlast := false, tdata := Nothing, rdEn := !o.preRead, preRead := true)
      case MwrHeader =>
        o.(tvalid := true, tlast := false, tdata := Request(RequestHeader(o.alloc)), rdEn := true)
      case MwrData =>
        if !i.tready then o.(rdEn := false)
        else if o.tlast then
          o.(tvalid := false, tlast := false, tdata := Nothing, lenCnt := 0,
             alloc := (o.alloc + TLP_DWORDS * 4) % TWO32)
        else
          o.(tdata := Payload(SwabQuad(i.fifoWord)), lenCnt := (o.lenCnt + 1) % 2048,
             tlast := o.lenCnt >= TLP_DWORDS / 4 - 1,
             rdEn := o.rdEn && !(o.lenCnt >= TLP_DWORDS / 4 - 1))
  }

  function NextMwr(s: Regs, i: In): MwrState {
    if !i.rstn || !i.dmaEnable || s.host.stopFlag then MwrIdle
    else if !MwrTxActive(s, i) || s.cpl.state != CplIdle then s.mwr
    else
      match s.mwr
      case MwrIdle => if i.tready then MwrHeader else MwrIdle
      case MwrHeader => if i.tready then MwrData else MwrHeader
      case MwrData => if TxFire(s, i) && s.out.tlast then MwrIdle else MwrData
  }

  /** Status bits 0 to 15, least significant first. */
  function StatusFlags(s: Regs, dmaEnable: bool): (flags: seq<bool>)
    ensures |flags| == 16
  {
    [Busy(s), s.host.done, Idle(s), s.host.stopAck, s.host.arm, s.host.startSeen,
     AddrValid(s), LenValid(s), dmaEnable, s.host.addrError, s.host.lenError,
     s.fault.overflow, s.fault.underflow, s.host.stopPending, s.host.start, s.xfer.rc]
  }

  lemma Pow2Of16()
    ensures Pow2(16) == 0x1_0000
  {
    assert Pow2(8) == 0x100;
  }

  function StatusWord(s: Regs, dmaEnable: bool): u32 {
    Pow2Of16();
    STATUS_VERSION * 0x100_0000 + Pack(StatusFlags(s, dmaEnable))
  }

  function NextStatus(s: Regs, i: In): u32 {
    if !i.rstn then 0 else StatusWord(s, i.dmaEnable)
  }

  function Step(s: Regs, i: In): Regs {
    Regs(NextInbound(s, i), NextHost(s, i), NextFault(s, i), NextXfer(s, i), NextCpl(s, i),
         NextOut(s, i), NextMwr(s, i), NextStatus(s, i))
  }

  const RESET := Regs(
    Inbound(InBeat(0, 0), false, false, 0, 0, 0, false, false, false, false),
    HOST_RESET, Fault(false, false), Xfer(false, 0, false, false, false), Cpl(false, 0, CplIdle),
    Out(false, false, Nothing, 0, false, false, 0), MwrIdle, 0)
}
