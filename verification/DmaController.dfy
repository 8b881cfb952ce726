/** `pcie_dma_ctrl.v` as a clocked object: one method per always block, each assigning only the
    registers that block drives, every right-hand side read from the state before the edge.
    Within a block, later assignments win, as the non-blocking assignments of the source do. */
module DmaController {
  import opened Words
  import opened DmaEngine
  import opened DmaInvariant
  import opened DmaHistory
  import opened DmaTheorems

  class PcieDmaCtrl {
    var inb: Inbound   // input pipeline and TLP field registers
    var host: Host     // host command decoder
    var fault: Fault   // FIFO fault flags
    var xfer: Xfer     // transfer control
    var cpl: Cpl       // register read-back
    var out: Out       // AXI-Stream output registers
    var mwr: MwrState
    var status: u32
    ghost var hist: History  // the traffic accepted so far

    function View(): Regs
      reads this
    {
      Regs(inb, host, fault, xfer, cpl, out, mwr, status)
    }

    ghost predicate Valid()
      reads this
    {
      Good(Config(View(), hist))
    }

    /** What the object promises the bus and the host: any request header on offer lies in its slot of
        the active range, and DONE means the whole frame, each byte written once, and a resting engine. */
    ghost predicate Promises()
      reads this
    {
      && (out.tvalid && out.tdata.Request? ==> HeaderInside(out.tdata.header, host.activeAddr, xfer.cnt))
      && (host.done ==>
            && |hist.frame| == FRAME_TLPS && TilesFrom(hist.frame, host.activeAddr)
            && (forall b :: Writers(hist.frame, b) ==
                  if host.activeAddr <= b < host.activeAddr + FRAME_BYTES then 1 else 0)
            && Quiescent(View()))
    }

    lemma ValidPromises()
      requires Valid()
      ensures Promises()
    {
      var c := Config(View(), hist);
      hide Good, HeaderInside, TilesFrom, Quiescent, Writers;
      if out.tvalid && out.tdata.Request? {
        HeadersStayInside(c);
      }
      if host.done {
        DoneMeansWholeFrame(c);
      }
    }

    constructor ()
      ensures View() == RESET && hist == NO_HISTORY && Valid()
    {
      hist := NO_HISTORY;
      inb, host, fault, xfer := RESET.inb, RESET.host, RESET.fault, RESET.xfer;
      cpl, out, mwr, status := RESET.cpl, RESET.out, RESET.mwr, RESET.status;
      new;
      StartIsGood();
    }

    /** One rising edge. A legal one keeps the object valid, and a valid object keeps its promises. */
    method Clock(i: In)
      modifies this
      ensures View() == Step(old(View()), i) && hist == NextHistory(old(View()), old(hist), i)
      ensures old(Valid()) && Legal(old(View()), i) ==> Valid() && Promises()
    {
      hide Step, NextHistory, Good, Legal, Promises;
      Edge(i);
      if old(Valid()) && Legal(old(View()), i) {
        StaysValid(old(View()), old(hist), i);
        ValidPromises();
      }
    }

    lemma StaysValid(o: Regs, h: History, i: In)
      requires Good(Config(o, h)) && Legal(o, i) && View() == Step(o, i) && hist == NextHistory(o, h, i)
      ensures Valid()
    {
      hide Good, Step, NextHistory, Legal;
      GoodStep(Config(o, h), i);
    }

    /** All blocks fire, none sees another's new value. */
    method Edge(i: In)
      modifies this
      ensures View() == Step(old(View()), i) && hist == NextHistory(old(View()), old(hist), i)
    {
      hide NextInbound, NextHost, NextFault, NextXfer, NextCpl, NextOut, NextMwr, NextHistory, StatusWord;
      var o := View();
      hist := NextHistory(o, hist, i);
      InputRegisters(o, i);
      HostDecoder(o, i);
      FaultFlags(o, i);
      TransferControl(o, i);
      ReadBack(o, i);
      OutputRegisters(o, i);
      MwrMachine(o, i);
      status := if i.rstn then StatusWord(o, i.dmaEnable) else 0;
    }

    method InputRegisters(o: Regs, i: In)
      modifies this`inb
      ensures inb == NextInbound(o, i)
    {
      if !i.rstn {
        inb := RESET.inb;
        return;
      }
      inb := Inbound(i.beat, i.beatValid, o.inb.valid0, 0, 0, 0, i.vs, o.inb.vs0, false, false);
      if o.inb.valid0 && !o.inb.valid1 {
        inb := inb.(fmtType := o.inb.beat.dw0 / 0x100_0000,
                    length := o.inb.beat.dw0 % 0x400,
                    reg := o.inb.beat.dw2 % 0x1000);
      }
      if i.linkUp {
        inb := inb.(full0 := i.fifoFull, full1 := o.inb.full0);
      }
    }

    method HostDecoder(o: Regs, i: In)
      requires host == o.host
      modifies this`host
      ensures host == NextHost(o, i)
    {
      if !i.rstn || !i.linkUp {
        host := HOST_RESET;
      } else if o.host.stopPending && TxPacketIdle(o) {
        host := host.(stopFlag := true, stopPending := false, stopAck := true, arm := false, start := false,
                      startSeen := false, addr0 := 0, len := 0, done := false);
      } else if IsWriteTo(o, STOP_REG) {
        host := host.(stopFlag := false, stopPending := true, stopAck := false, start := false);
      } else if IsWriteTo(o, ARM_REG) {
        ArmCommand(o, i);
      } else if IsWriteTo(o, LEN_REG) && o.host.arm && !Busy(o) {
        LengthCommand(o, i);
      } else if IsWriteTo(o, ADDR_REG) && ((o.host.arm && !Busy(o)) || CmdData(o) == 0) {
        AddressCommand(o, i);
      } else if IsWriteTo(o, START_REG) && o.host.arm && CmdData(o) != 0 {
        StartCommand(o, i);
      } else {
        EndOfTlp(o, i);
      }
    }

    method ArmCommand(o: Regs, i: In)
      requires host == o.host && i.rstn && i.linkUp
      requires !(o.host.stopPending && TxPacketIdle(o))
      requires IsWriteTo(o, ARM_REG)
      modifies this`host
      ensures host == NextHost(o, i)
    {
      if CmdData(o) == ARM_MAGIC && Idle(o) {
        host := HOST_RESET.(arm := true);
      } else {
        host := host.(stopFlag := false, arm := false, start := false, startSeen := false);
      }
    }

    method LengthCommand(o: Regs, i: In)
      requires host == o.host && i.rstn && i.linkUp
      requires !(o.host.stopPending && TxPacketIdle(o))
      requires IsWriteTo(o, LEN_REG) && o.host.arm && !Busy(o)
      modifies this`host
      ensures host == NextHost(o, i)
    {
      var data := CmdData(o);
      host := host.(stopFlag := false, len := data, done := false, lenError := data != FRAME_BYTES);
    }

    method AddressCommand(o: Regs, i: In)
      requires host == o.host && i.rstn && i.linkUp
      requires HostEventOf(o, i) == AddrWrite
      modifies this`host
      ensures host == NextHost(o, i)
    {
      var data := CmdData(o);
      host := host.(stopFlag := false, addr0 := data, addrError := data == 0 || data % 64 != 0);
    }

    method StartCommand(o: Regs, i: In)
      requires host == o.host && i.rstn && i.linkUp
      requires !(o.host.stopPending && TxPacketIdle(o))
      requires IsWriteTo(o, START_REG) && o.host.arm && CmdData(o) != 0
      modifies this`host
      ensures host == NextHost(o, i)
    {
      if RangeValid(o) && i.dmaEnable && Idle(o) {
        host := host.(stopFlag := false, startSeen := true, start := true, done := false,
                      activeAddr := o.host.addr0, activeLen := o.host.len, bytesSent := 0,
                      addrError := false, lenError := false);
      } else {
        host := host.(stopFlag := false, startSeen := true, start := false,
                      addrError := !AddrValid(o) || o.host.addr0 + o.host.len > TWO32,
                      lenError := !LenValid(o));
      }
    }

    /** Any other decoder input: only an accepted TLAST of a memory write matters. */
    method EndOfTlp(o: Regs, i: In)
      requires host == o.host && i.rstn && i.linkUp
      requires !(o.host.stopPending && TxPacketIdle(o))
      requires HostEventOf(o, i) == TlpDone || HostEventOf(o, i) == NoEvent
      modifies this`host
      ensures host == NextHost(o, i)
    {
      host := host.(stopFlag := false);
      if MwrTlast(o, i) {
        host := host.(bytesSent := (o.host.bytesSent + 64) % TWO32);
        if FinalTlp(o) {
          host := host.(start := false, arm := false, startSeen := false, done := true);
        }
      }
    }

    method FaultFlags(o: Regs, i: In)
      requires fault == o.fault
      modifies this`fault
      ensures fault == NextFault(o, i)
    {
      if !i.rstn || !i.linkUp || ArmCmdAccept(o) {
        fault := Fault(false, false);
      } else {
        if o.inb.full1 && o.xfer.capture {
          fault := fault.(overflow := true);
        }
        if o.out.rdEn && i.fifoEmpty {
          fault := fault.(underflow := true);
        }
      }
    }

    method TransferControl(o: Regs, i: In)
      requires xfer == o.xfer
      modifies this`xfer
      ensures xfer == NextXfer(o, i)
    {
      if !i.rstn || !i.linkUp || !i.dmaEnable || o.host.stopFlag {
        xfer := Xfer(false, 0, false, false, false);
        return;
      }
      if o.host.start && RangeValid(o) && !o.host.stopPending {
        xfer := xfer.(rc := true);
      }
      if !o.inb.vs0 && o.inb.vs1 && o.xfer.rc && !o.xfer.fram {
        xfer := xfer.(fram := true, capture := true, dmaStart := false);
      }
      if o.inb.vs0 && !o.inb.vs1 && o.xfer.capture {
        xfer := xfer.(capture := false);
      }
      if MwrTlast(o, i) {
        xfer := xfer.(dmaStart := false);
        if FinalTlp(o) {
          xfer := xfer.(cnt := 0, rc := false, fram := false, capture := false);
        } else {
          xfer := xfer.(cnt := (o.xfer.cnt + 1) % 0x1_0000);
        }
      } else if o.xfer.rc && o.xfer.fram && !o.host.stopPending &&
                ((o.xfer.cnt == 0 && i.waterLevel >= TLP_DWORDS / 4 + 1) ||
                 (o.xfer.cnt != 0 && i.waterLevel >= TLP_DWORDS / 4)) {
        xfer := xfer.(dmaStart := true);
      }
    }

    method ReadBack(o: Regs, i: In)
      requires cpl == o.cpl
      modifies this`cpl
      ensures cpl == NextCpl(o, i)
    {
      if !i.rstn || !i.linkUp {
        cpl := Cpl(false, 0, CplIdle);
        return;
      }
      if IsRead(o) && !o.cpl.pending {
        cpl := cpl.(pending := true, data := ReadMux(o));
      } else if o.cpl.state == CplData && i.tready {
        cpl := cpl.(pending := false);
      }
      match o.cpl.state
      case CplIdle =>
        if o.cpl.pending && !MwrTxActive(o, i) && i.tready {
          cpl := cpl.(state := CplHeader);
        }
      case CplHeader =>
        if i.tready {
          cpl := cpl.(state := CplData);
        }
      case CplData =>
        if i.tready {
          cpl := cpl.(state := CplIdle);
        }
    }

    method OutputRegisters(o: Regs, i: In)
      requires out == o.out
      modifies this`out
      ensures out == NextOut(o, i)
    {
      if !i.rstn || !i.linkUp || o.host.stopFlag {
        out := Out(false, false, Nothing, 0, false, false, 0);
      } else if o.host.start && !o.xfer.rc {
        out := out.(tvalid := false, tlast := false, lenCnt := 0, preRead := false, rdEn := false,
                    alloc := o.host.activeAddr);
      } else if o.cpl.state == CplHeader {
        out := out.(tvalid := true, tlast := false, tdata := CompletionHeader, rdEn := false);
      } else if o.cpl.state == CplData {
        out := out.(tvalid := true, tlast := true, tdata := Completion(Swab32(o.cpl.data)), rdEn := false);
      } else if MwrTxActive(o, i) {
        match o.mwr
        case MwrIdle =>
          out := out.(tvalid := false, tlast := false, tdata := Nothing);
          if !o.out.preRead {
            out := out.(rdEn := true, preRead := true);
          } else {
            out := out.(rdEn := false);
          }
        case MwrHeader =>
          out := out.(tvalid := true, tlast := false, rdEn := true,
                      tdata := Request(MemWriteHeader(2, 0, TLP_DWORDS, 0xf, 0xf, 1, o.out.alloc)));
        case MwrData =>
          if i.tready {
            out := out.(tdata := Payload(SwabQuad(i.fifoWord)), lenCnt := (o.out.lenCnt + 1) % 2048);
            if o.out.tlast {
              out := out.(lenCnt := 0, tvalid := false, tdata := Nothing, tlast := false,
                          alloc := (o.out.alloc + TLP_DWORDS * 4) % TWO32);
            } else if o.out.lenCnt >= TLP_DWORDS / 4 - 1 {
              out := out.(tlast := true, rdEn := false);
            }
          } else {
            out := out.(rdEn := false);
          }
      } else {
        out := out.(tvalid := false, tlast := false, tdata := Nothing, rdEn := false);
      }
    }

    method MwrMachine(o: Regs, i: In)
      requires mwr == o.mwr
      modifies this`mwr
      ensures mwr == NextMwr(o, i)
    {
      if !i.rstn || !i.dmaEnable || o.host.stopFlag {
        mwr := MwrIdle;
      } else if MwrTxActive(o, i) && o.cpl.state == CplIdle {
        match o.mwr
        case MwrIdle =>
          if i.tready {
            mwr := MwrHeader;
          }
        case MwrHeader =>
          if i.tready {
            mwr := MwrData;
          }
        case MwrData =>
          if TxFire(o, i) && o.out.tlast {
            mwr := MwrIdle;
          }
      }
    }
  }
}
