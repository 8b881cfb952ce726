/** The single-buffer driver on the engine: colorbar_pcie_driver.c for protocol 0x0A, its ioctls as
    methods, every register access a stretch of the engine's run under arbitrary inputs. */
module SingleDriver {
  import opened Words
  import opened HostMemory
  import opened Runs
  import opened DmaEngine
  import opened DmaInvariant
  import opened DmaTheorems
  import opened DriverLog
  import opened Board

  const VERSION: byte := 0x0A
  const BUFFERS: nat := 1

  /** One register read: the board when the engine decodes it, whether a completion with the captured
      value reaches the host, and what the host gets. */
  datatype Probe = Probe(at: Board, came: bool, raw: u32)

  /** A read is answered unless an earlier one is still pending or no completion comes. */
  predicate Answered(pr: Probe) { !pr.at.c.s.cpl.pending && pr.came }

  /** The register's value when answered, and all ones otherwise. */
  predicate Took(pr: Probe, reg: nat) {
    pr.raw == if Answered(pr) then RegValue(pr.at.c.s, reg) else 0xFFFF_FFFF
  }

  /** What `dma_alloc_coherent` gave. */
  datatype Offer = NoMemory | Memory(addr: nat)

  /** Aligned, and the frame ends below 4 GiB. */
  predicate Usable(o: Offer) { o.Memory? && o.addr % 64 == 0 && o.addr + FRAME_SIZE <= TWO32 }

  /** What decided a START that was not refused at once. */
  datatype Launching = Launching(
    stopSeen: seq<u32>, stop: Ret, echo: Probe, ready: Probe, masterSeen: seq<u32>, master: Ret)

  /** What decided a WAIT_FRAME. */
  datatype Finish = Finish(seen: seq<u32>, poll: Ret, addr: Probe, len: Probe, sent: Probe)

  class Device {
    // the board
    var b: Board
    ghost var log: seq<Event> // its register writes, polls and Bus Master changes so far
    // struct colorbar_device
    var cpuMapped: bool     // bufs[0].cpu_addr != NULL
    var dmaAddr: nat        // bufs[0].dma_addr
    var bufsAllocated: bool
    var started: bool
    var frameReady: bool
    var bufferSize: nat
    var frameCounter: nat
    var lastBufferIndex: nat
    ghost var aim: u32 // the address the engine was programmed with at the last START

    ghost predicate BusOk()
      reads this`b
    {
      BoardOk(b) && QuietBus(b.c.s)
    }

    /** What the log establishes. */
    ghost function Mon(): Monitor
      reads this`log
    {
      Watch(log, VERSION, BUFFERS)
    }

    /** The register writes so far, in order and with their values. */
    ghost function Written(): seq<Event>
      reads this`log
    {
      WritesOf(log)
    }

    ghost method Note(e: Event)
      modifies this`log
      ensures log == old(log) + [e] && Mon() == Observe(old(Mon()), e, VERSION, BUFFERS)
      ensures Written() == old(Written()) + if WritesRegister(e) then [e] else []
    {
      hide Observe;
      log := log + [e];
      assert log[..|log| - 1] == old(log);
    }

    /** What the log of any run says of its ARM and START writes. */
    lemma EveryStartIsChecked(k: nat)
      requires Valid() && k < |log|
      ensures log[k].WroteArm? ==> StopAcknowledged(log[..k], VERSION)
      ensures log[k].WroteStart? ==>
                && SawReady(log[..k], VERSION) && SawMaster(log[..k], VERSION) && MasterIsOn(log[..k])
                && (ReadBack(log[..k]) ==> SawEchoes(log[..k], BUFFERS))
    {
      LogIsDisciplined(log, k, VERSION, BUFFERS);
    }

    ghost predicate LogOk()
      reads this`b, this`log
    {
      !Mon().violated && Mon().master == b.busMaster
    }

    /** The range check of the allocation path. */
    predicate BufferOk()
      reads this`bufsAllocated, this`cpuMapped, this`bufferSize, this`dmaAddr
    {
      && bufsAllocated && cpuMapped && bufferSize == BUFFER_SIZE
      && dmaAddr % 64 == 0 && dmaAddr + FRAME_SIZE <= TWO32
    }

    predicate NoBuffer()
      reads this`bufsAllocated, this`cpuMapped, this`bufferSize, this`started
    {
      !bufsAllocated && !cpuMapped && bufferSize == 0 && !started
    }

    predicate GuardFilled(m: Mem)
      reads this`dmaAddr
    {
      forall x | dmaAddr + FRAME_SIZE <= x < dmaAddr + BUFFER_SIZE :: m(x) == PREFILL
    }

    predicate FieldsOk()
      reads this`frameReady, this`bufsAllocated, this`frameCounter, this`lastBufferIndex
    {
      (frameReady ==> bufsAllocated) && frameCounter == (if frameReady then 1 else 0) && lastBufferIndex == 0
    }

    /** What holds between calls. */
    ghost predicate Valid()
      reads this
    {
      && BusOk() && LogOk()
      && (BufferOk() || NoBuffer())
      && b.busMaster == started
      && (started ==> Flight(b) && Aims(b.c.s, aim) && GuardFilled(b.base))
      && FieldsOk() && !(frameReady && started)
    }

    // -------------------------------------------------------------- time on the board

    /** One edge with the given inbound beat and everything else arbitrary. */
    method Cycle(valid: bool, beat: InBeat) returns (ghost i: In)
      requires BoardOk(b)
      requires IsWriteTo(b.c.s, ARM_REG) || IsWriteTo(b.c.s, START_REG) ==> !b.c.s.host.start
      modifies this`b
      ensures BoardEdge(old(b), i) && i.beatValid == valid && i.beat == beat
      ensures b == NextBoard(old(b), i) && BoardOk(b)
      ensures b.c.s.inb == NextInbound(old(b.c.s), i) && b.c.s.cpl == NextCpl(old(b.c.s), i)
    {
      hide NextInbound, NextHost, NextFault, NextXfer, NextCpl, NextOut, NextMwr, NextStatus, NextHistory;
      hide Watch, WritesOf, NextBoard, BoardOk, Legal;
      var e: In := *;
      var entering := b.c.s.mwr == MwrHeader && !b.c.s.out.tvalid;
      var j := e.(rstn := true, dmaEnable := b.busMaster && e.linkUp, tready := e.tready || entering,
                  beatValid := valid, beat := beat);
      OrderlyHostIsLegal(b.c.s, j);
      BoardOkStep(b, j);
      BoardParts(b, j);
      b := NextBoard(b, j);
      i := j;
    }

    /** Any number of edges without inbound traffic. */
    method Pass() returns (ghost ins: seq<In>)
      requires BusOk()
      modifies this`b
      ensures BusOk() && Quietly(old(b), ins) && b == AfterQuiet(old(b), ins)
    {
      hide Watch, WritesOf, NextBoard, BoardOk;
      ins := [];
      var n: nat := *;
      while n > 0
        invariant BusOk() && Quietly(old(b), ins) && b == AfterQuiet(old(b), ins)
      {
        var beat: InBeat := *;
        ghost var was := b;
        ghost var i := Cycle(false, beat);
        assert QuietEdge(was, i);
        Snoc(NextBoard, old(b), ins, i, QuietEdge);
        ins := ins + [i];
        n := n - 1;
      }
    }

    /** Two edges bring a header and the beat behind it into the decoder. */
    method Deliver(fmtType: nat, reg: nat, data: u32, payload: bool) returns (ghost ins: seq<In>)
      requires BusOk() && fmtType < 0x80 && reg < 0x1000
      modifies this`b
      ensures BoardOk(b) && Quietly(old(b), ins) && b == AfterQuiet(old(b), ins)
      ensures var inb := b.c.s.inb;
              && inb.fmtType == fmtType && inb.length == 1 && inb.reg == reg && inb.beat.dw0 == data
              && inb.valid1
    {
      hide Watch, WritesOf, NextBoard, BoardOk;
      ghost var b0 := b;
      ghost var i := Cycle(true, InBeat(fmtType * 0x100_0000 + 1, reg));
      ghost var b1 := b;
      ghost var j := Cycle(payload, InBeat(data, 0));
      Decoded(b0.c.s, i, b1.c.s, j, b.c.s, fmtType, reg, data);
      ins := [i] + [j];
      Snoc(NextBoard, b0, [], i, QuietEdge);
      Snoc(NextBoard, b0, [i], j, QuietEdge);
    }

    /** The edge at which the decoder handles a delivered write. */
    method Execute(reg: nat, v: u32, ghost a: u32)
      requires BoardOk(b) && IsWriteTo(b.c.s, reg) && CmdData(b.c.s) == v && b.c.s.inb.valid1
      requires reg == STOP_REG || Calm(b)
      requires reg == START_REG ==> b.sent == [] && b.busMaster
      modifies this`b
      ensures BusOk() && b.busMaster == old(b.busMaster) && b.base == old(b.base)
      ensures old(Calm(b)) && reg != START_REG ==> Calm(b) && b.sent == old(b.sent) && b.mem == old(b.mem)
      ensures reg == STOP_REG && old(Parked(b.c)) ==> Parked(b.c) && b.sent == old(b.sent) && b.mem == old(b.mem)
      ensures reg == START_REG ==> Flight(b)
      ensures reg == START_REG && old(Holds(b.c.s, a)) ==> Aims(b.c.s, a)
    {
      ghost var was := b;
      var beat: InBeat := *;
      ghost var i := Cycle(false, beat);
      BoardParts(was, i);
      hide Watch, WritesOf, NextBoard, BoardOk;
      if reg == STOP_REG {
        StopWrite(was, i, v);
      }
      if reg == START_REG {
        StartWrite(was, i, v);
        if Holds(was.c.s, a) {
          StartWriteAims(was, i, v, a);
        }
      } else if Calm(was) {
        CalmWrite(was, i, reg, v);
      }
    }

    /** `iowrite32`; every write is logged. */
    method IoWrite(reg: nat, v: u32, ghost a: u32)
      requires BusOk() && reg < 0x1000
      requires reg == STOP_REG || Calm(b)
      requires reg == START_REG ==> b.sent == [] && b.busMaster
      modifies this`b, this`log
      ensures BusOk() && b.busMaster == old(b.busMaster) && b.base == old(b.base)
      ensures old(Calm(b)) && reg != START_REG ==> Calm(b) && b.sent == old(b.sent) && b.mem == old(b.mem)
      ensures reg == STOP_REG && old(Parked(b.c)) ==> Parked(b.c) && b.sent == old(b.sent) && b.mem == old(b.mem)
      ensures reg == START_REG ==> Flight(b)
      ensures reg == START_REG && old(Holds(b.c.s, a)) ==> Aims(b.c.s, a)
      ensures log == old(log) + [WriteEvent(reg, v)]
      ensures Mon() == Observe(old(Mon()), WriteEvent(reg, v), VERSION, BUFFERS)
      ensures Written() == old(Written()) + [WriteEvent(reg, v)]
    {
      hide Watch, WritesOf, NextBoard, BoardOk, Calm, Parked, Flight, Holds, Aims;
      Note(WriteEvent(reg, v));
      ghost var b0 := b;
      ghost var before := Pass();
      ghost var bring := Deliver(0x40, reg, Swab32(v), true);
      Concat(NextBoard, b0, before, bring, QuietEdge);
      KeptQuietly(b0, before + bring, a);
      SwabInvolution(v);
      Execute(reg, v, a);
      ghost var b3 := b;
      ghost var after := Pass();
      KeptQuietly(b3, after, a);
    }

    /** `ioread32`: the value the engine captured, or all ones when no completion came. */
    method IoRead(reg: nat) returns (v: u32, ghost pre: seq<In>, ghost post: seq<In>, ghost pr: Probe)
      requires BusOk() && reg < 0x1000
      modifies this`b
      ensures BusOk() && Quietly(old(b), pre) && Quietly(AfterQuiet(old(b), pre), post)
      ensures b == AfterQuiet(AfterQuiet(old(b), pre), post)
      ensures pr.at == AfterQuiet(old(b), pre) && post != [] && (pr.came ==> post[0].linkUp) && v == pr.raw
      ensures Took(pr, reg)
    {
      hide Watch, WritesOf, NextBoard, BoardOk;
      ghost var b0 := b;
      ghost var before := Pass();
      var none: u32 := *;
      ghost var bring := Deliver(0x00, reg, none, false);
      Concat(NextBoard, b0, before, bring, QuietEdge);
      pre := before + bring;
      ghost var at := b;
      var taken := !b.c.s.cpl.pending;
      var beat: InBeat := *;
      ghost var i := Cycle(false, beat);
      Snoc(NextBoard, at, [], i, QuietEdge);
      var came: bool := *;
      v := if came && taken && b.c.s.cpl.pending then b.c.s.cpl.data else 0xFFFF_FFFF;
      pr := Probe(at, came && i.linkUp, v);
      ghost var rest := Pass();
      post := [i] + rest;
      Concat(NextBoard, at, [i], rest, QuietEdge);
    }

    // -------------------------------------------------------------- polling

    /** `colorbar_read_status_locked`: the status register, or all ones when no completion came. */
    method ReadStatus() returns (status: u32, ghost pre: seq<In>, ghost post: seq<In>, ghost pr: Probe)
      requires BusOk() && LogOk()
      modifies this`b, this`log
      ensures BusOk() && Quietly(old(b), pre) && Quietly(AfterQuiet(old(b), pre), post)
      ensures b == AfterQuiet(AfterQuiet(old(b), pre), post)
      ensures pr.at == AfterQuiet(old(b), pre) && status == pr.raw && Took(pr, STATUS_REG)
      ensures Version(status) == VERSION ==> status == AfterQuiet(old(b), pre).c.s.status
      ensures log == old(log) + [SawStatus(status)]
      ensures Mon() == Observe(old(Mon()), SawStatus(status), VERSION, BUFFERS)
      ensures Written() == old(Written())
    {
      hide Watch, WritesOf, NextBoard, BoardOk, QuietBus, Swab32, Bit;
      ghost var b0 := b;
      var raw, pre0, post0, pr0 := IoRead(STATUS_REG);
      pre, post, pr := pre0, post0, pr0;
      status := DecodeStatus(raw, VERSION);
      Note(SawStatus(status));
      ghost var at := AfterQuiet(b0, pre);
      QuietlyOk(b0, pre);
      QuietlyOk(at, post);
      VersionOfBoard(at);
      DecodedExactly(at.c.s.status, raw, VERSION);
    }

    /** One more poll, `path` after `b0`. */
    method PollStatus(q: Poll, ghost b0: Board, ghost path: seq<In>)
      returns (status: u32, ghost pre: seq<In>, ghost post: seq<In>, ghost pr: Probe)
      requires BusOk() && LogOk() && Quietly(b0, path) && b == AfterQuiet(b0, path)
      modifies this`b, this`log
      ensures BusOk() && LogOk() && Quietly(b0, pre) && Quietly(AfterQuiet(b0, pre), post)
      ensures b == AfterQuiet(AfterQuiet(b0, pre), post) && b.busMaster == old(b.busMaster)
      ensures pr.at == AfterQuiet(b0, pre) && status == pr.raw && Took(pr, STATUS_REG)
      ensures Version(status) == VERSION ==> status == AfterQuiet(b0, pre).c.s.status
      ensures log == old(log) + [SawStatus(status)]
      ensures Mon() == Observe(old(Mon()), SawStatus(status), VERSION, BUFFERS)
      ensures Written() == old(Written())
    {
      hide Watch, WritesOf, NextBoard, BoardOk, Took, QuietBus, Bit, AllSet, AllClear;
      ghost var was := b;
      var st, pre1, post1, pr1 := ReadStatus();
      status, pr := st, pr1;
      QuietlyOk(was, pre1);
      QuietlyOk(AfterQuiet(was, pre1), post1);
      Concat(NextBoard, b0, path, pre1, QuietEdge);
      pre, post := path + pre1, post1;
    }

    /** `colorbar_wait_status_locked`; how many polls fit into the timeout is arbitrary. */
    method WaitStatus(q: Poll)
      returns (ret: Ret, status: u32, ghost pre: seq<In>, ghost post: seq<In>, ghost seen: seq<u32>, ghost pr: Probe)
      requires BusOk() && LogOk() && q.version == VERSION
      modifies this`b, this`log
      ensures BusOk() && LogOk() && Quietly(old(b), pre) && Quietly(AfterQuiet(old(b), pre), post)
      ensures b == AfterQuiet(AfterQuiet(old(b), pre), post)
      ensures PollEnds(q, seen, ret) && status == seen[|seen| - 1] && log == old(log) + Saws(seen)
      ensures pr.at == AfterQuiet(old(b), pre) && status == pr.raw && Took(pr, STATUS_REG)
      ensures ret == Ok ==> status == AfterQuiet(old(b), pre).c.s.status
      ensures OnlySaw(old(Mon()), Mon())
      ensures ret == Ok && Stopped(status, VERSION) && Mon().stopSent ==> Mon().acked
      ensures ret == Ok && MasterVisible(status, VERSION) && b.busMaster ==> Mon().visible
      ensures Written() == old(Written())
    {
      hide Watch, WritesOf, NextBoard, BoardOk, Took, QuietBus, PollEnds, Unsettled, Saws, AllSet, AllClear, ErrorFree;
      NoneSeen(q, log);
      ghost var path: seq<In> := [];
      var polls: nat := *;
      seen := [];
      while true
        invariant BusOk() && LogOk() && Quietly(old(b), path) && b == AfterQuiet(old(b), path)
        invariant OnlySaw(old(Mon()), Mon()) && Written() == old(Written())
        invariant b.busMaster == old(b.busMaster)
        invariant log == old(log) + Saws(seen) && Unsettled(q, seen)
        decreases polls
      {
        status, pre, post, pr := PollStatus(q, old(b), path);
        OneMoreSeen(q, old(log), seen, status);
        seen := seen + [status];
        if q.failOnError && Version(status) == VERSION && !ErrorFree(status) {
          return EIO, status, pre, post, seen, pr;
        }
        if Version(status) == VERSION && AllSet(status, q.requiredSet) && AllClear(status, q.requiredClear) {
          return Ok, status, pre, post, seen, pr;
        }
        if polls == 0 {
          return ETIMEDOUT, status, pre, post, seen, pr;
        }
        polls := polls - 1;
        Concat(NextBoard, old(b), pre, post, QuietEdge);
        path := pre + post;
      }
    }

    // -------------------------------------------------------------- STOP and Bus Master

    /** `colorbar_stop_wait_locked`, with `colorbar_hw_safe_stop`. */
    method StopWait() returns (ret: Ret, ghost seen: seq<u32>)
      requires BusOk() && LogOk()
      modifies this`b, this`log, this`started
      ensures BusOk() && LogOk() && b.busMaster == old(b.busMaster) && b.base == old(b.base)
      ensures !started && NoNewStart(old(Mon()), Mon()) && SameCallAs(old(Mon()), Mon())
      ensures PollEnds(StopPoll(VERSION), seen, ret) && log == old(log) + [WroteStop(0)] + Saws(seen)
      ensures ret == Ok ==> Calm(b) && Mon().acked
      ensures old(Parked(b.c)) ==> Parked(b.c) && b.sent == old(b.sent) && b.mem == old(b.mem)
      ensures Written() == old(Written()) + [WroteStop(0)]
    {
      hide Watch, WritesOf, NextBoard, BoardOk, Parked, PollEnds, Took, Saws;
      IoWrite(STOP_REG, 0, 0);
      started := false;
      ghost var b0 := b;
      var r, status, pre, post, seen1, pr := WaitStatus(StopPoll(VERSION));
      ret, seen := r, seen1;
      ghost var at := AfterQuiet(b0, pre);
      QuietlyOk(b0, pre);
      QuietlyOk(at, post);
      if Parked(b0.c) {
        QuietlyParked(b0, pre);
        QuietlyParked(at, post);
      }
      if ret == Ok {
        PollMet(StopPoll(VERSION), seen, ret);
        AckedIsCalm(at);
        QuietlyCalm(at, post);
      }
    }

    /** `pci_set_master` and `pci_clear_master`. */
    method SetMaster(on: bool)
      requires BusOk() && LogOk()
      modifies this`b, this`log
      ensures BusOk() && LogOk() && b == old(b).(busMaster := on)
      ensures Mon() == Observe(old(Mon()), if on then MasterOn else MasterOff, VERSION, BUFFERS)
      ensures Written() == old(Written())
    {
      ghost var e := if on then MasterOn else MasterOff;
      Note(e);
      b := b.(busMaster := on);
    }

    /** `colorbar_stop_locked`. */
    method StopLocked()
      requires BusOk() && LogOk()
      modifies this`b, this`log, this`started
      ensures BusOk() && LogOk() && !b.busMaster && !started && b.base == old(b.base)
      ensures NoNewStart(old(Mon()), Mon())
      ensures old(Parked(b.c)) ==> Parked(b.c) && b.sent == old(b.sent) && b.mem == old(b.mem)
      ensures Written() == old(Written()) + [WroteStop(0)]
    {
      SetMaster(true);
      var ret, seen := StopWait();
      SetMaster(false);
    }

    // -------------------------------------------------------------- START

    /** `colorbar_write_cmd32` and `colorbar_write_dma_addr` before START. */
    method WriteSetup(reg: nat, v: u32)
      requires BusOk() && LogOk() && Calm(b) && reg in {ARM_REG, ADDR_REG, LEN_REG}
      requires reg == ARM_REG ==> Mon().acked
      modifies this`b, this`log
      ensures BusOk() && LogOk() && Calm(b) && NoNewStart(old(Mon()), Mon())
      ensures b.busMaster == old(b.busMaster) && b.base == old(b.base) && b.sent == old(b.sent)
      ensures SameCallAs(old(Mon()), Mon()) && Mon().echoes == 0
      ensures Written() == old(Written()) + [WriteEvent(reg, v)]
    {
      IoWrite(reg, v, 0);
    }

    /** The read of ADDR_ECHO0, byte order undone. The engine goes on holding the address it showed. */
    method ReadEcho(p: Params) returns (got: u32, ghost echo: Probe)
      requires BusOk() && LogOk() && Calm(b)
      modifies this`b, this`log
      ensures BusOk() && LogOk() && Calm(b) && NoNewStart(old(Mon()), Mon())
      ensures b.busMaster == old(b.busMaster) && b.base == old(b.base) && b.sent == old(b.sent)
      ensures got == SwapIf(p.readSwap, echo.raw) && Took(echo, ADDR_ECHO0_REG)
      ensures Holds(b.c.s, echo.at.c.s.host.addr0)
      ensures log == old(log) + [SawEcho(0, got)] && Mon() == Observe(old(Mon()), SawEcho(0, got), VERSION, BUFFERS)
      ensures Written() == old(Written())
    {
      hide Watch, WritesOf, NextBoard, BoardOk, Calm, Took, SwapIf;
      ghost var b0 := b;
      var raw, pre, post, pr := IoRead(ADDR_ECHO0_REG);
      echo := pr;
      CalmRead(b0, pre, post);
      QuietlyOk(b0, pre);
      QuietlyHolds(echo.at, post, echo.at.c.s.host.addr0);
      got := SwapIf(p.readSwap, raw);
      Note(SawEcho(0, got));
    }

    /** The pre-start status. */
    method ReadCalmStatus(ghost a: u32) returns (status: u32, ghost ready: Probe)
      requires BusOk() && LogOk() && Calm(b)
      modifies this`b, this`log
      ensures BusOk() && LogOk() && Calm(b) && NoNewStart(old(Mon()), Mon())
      ensures b.busMaster == old(b.busMaster) && b.base == old(b.base) && b.sent == old(b.sent)
      ensures old(Holds(b.c.s, a)) ==> Holds(b.c.s, a)
      ensures status == ready.raw && Took(ready, STATUS_REG)
      ensures Mon() == Observe(old(Mon()), SawStatus(status), VERSION, BUFFERS)
      ensures Written() == old(Written())
    {
      hide Watch, WritesOf, NextBoard, BoardOk, Calm, Took, Holds;
      ghost var b0 := b;
      var st, pre, post, pr := ReadStatus();
      status, ready := st, pr;
      CalmRead(b0, pre, post);
      HoldsRead(b0, pre, post, a);
    }

    lemma HoldsRead(b0: Board, pre: seq<In>, post: seq<In>, a: u32)
      requires BoardOk(b0) && Quietly(b0, pre) && Quietly(AfterQuiet(b0, pre), post)
      ensures Holds(b0.c.s, a) ==> Holds(AfterQuiet(AfterQuiet(b0, pre), post).c.s, a)
    {
      if Holds(b0.c.s, a) {
        QuietlyOk(b0, pre);
        QuietlyHolds(b0, pre, a);
        QuietlyHolds(AfterQuiet(b0, pre), post, a);
      }
    }

    /** An echo that reads as the buffer's address was answered, and is the programmed address. */
    lemma EchoSettles(p: Params, echo: Probe)
      requires BufferOk() && Took(echo, ADDR_ECHO0_REG) && SwapIf(p.readSwap, echo.raw) == dmaAddr
      ensures Answered(echo) && echo.at.c.s.host.addr0 == SwapIf(p.readSwap, dmaAddr)
    {
      SwabAllOnes();
      SwabInvolution(echo.raw);
      hide Swab32;
    }

    /** `colorbar_verify_readback_locked`. On success with read-back on, the engine holds the buffer's
        address, in the byte order that the parameters agree on. */
    method VerifyReadback(p: Params) returns (ret: Ret, ghost echo: Probe, ghost ready: Probe)
      requires BusOk() && LogOk() && Calm(b) && BufferOk()
      requires Mon().verify == p.verifyReadback && Mon().addrs == [dmaAddr] && Mon().echoes == 0
      modifies this`b, this`log
      ensures BusOk() && LogOk() && Calm(b) && NoNewStart(old(Mon()), Mon()) && SameCallAs(old(Mon()), Mon())
      ensures b.busMaster == old(b.busMaster) && b.base == old(b.base) && b.sent == old(b.sent)
      ensures Took(ready, STATUS_REG) && (p.verifyReadback ==> Took(echo, ADDR_ECHO0_REG))
      ensures ret == VerifyRet(p, echo, ready)
      ensures ret == Ok ==> var m := Mon(); m.ready && (m.verify ==> m.echoes == BUFFERS)
      ensures ret == Ok && p.verifyReadback ==> Holds(b.c.s, SwapIf(p.readSwap, dmaAddr))
      ensures Written() == old(Written())
    {
      hide Watch, WritesOf, NextBoard, BoardOk, Calm, Took, SwapIf, Holds, RegValue, Answered;
      echo := Probe(b, false, 0xFFFF_FFFF);
      ready := echo;
      Unanswered(b, STATUS_REG);
      ghost var a: u32 := b.c.s.host.addr0;
      if p.verifyReadback {
        var got, echo1 := ReadEcho(p);
        echo := echo1;
        if got != dmaAddr {
          return EIO, echo, ready;
        }
        EchoSettles(p, echo);
        a := SwapIf(p.readSwap, dmaAddr);
      }
      var status, ready1 := ReadCalmStatus(a);
      ready := ready1;
      ret := if ReadyToStart(status, VERSION) then Ok else EIO;
    }

    lemma Unanswered(at: Board, reg: nat)
      ensures Took(Probe(at, false, 0xFFFF_FFFF), reg)
    {
    }

    /** What the two reads decide. */
    ghost function VerifyRet(p: Params, echo: Probe, ready: Probe): Ret
      reads this`dmaAddr
    {
      if p.verifyReadback && SwapIf(p.readSwap, echo.raw) != dmaAddr then EIO
      else if ReadyToStart(ready.raw, VERSION) then Ok
      else EIO
    }

    lemma CalmRead(b0: Board, pre: seq<In>, post: seq<In>)
      requires BoardOk(b0) && Calm(b0) && Quietly(b0, pre) && Quietly(AfterQuiet(b0, pre), post)
      ensures var d := AfterQuiet(AfterQuiet(b0, pre), post);
              Calm(d) && d.sent == b0.sent && d.mem == b0.mem && d.busMaster == b0.busMaster && d.base == b0.base
    {
      QuietlyOk(b0, pre);
      QuietlyCalm(b0, pre);
      QuietlyOk(AfterQuiet(b0, pre), post);
      QuietlyCalm(AfterQuiet(b0, pre), post);
    }

    /** `memset` of the whole buffer. */
    method Prefill()
      requires BusOk() && LogOk() && cpuMapped && bufferSize == BUFFER_SIZE
      modifies this`b
      ensures BusOk() && LogOk() && b.c == old(b.c) && b.busMaster == old(b.busMaster)
      ensures b.sent == [] && GuardFilled(b.base) && (old(Calm(b)) ==> Calm(b))
    {
      var m := Fill(b.mem, dmaAddr, bufferSize, PREFILL);
      b := b.(mem := m, base := m, sent := []);
    }

    /** What START writes before the checks: STOP, then the magic, the address and the length, each in
        the byte order its parameter selects. */
    ghost function SetupWrites(p: Params): seq<Event>
      requires BufferOk()
      reads this`bufsAllocated, this`cpuMapped, this`bufferSize, this`dmaAddr
    {
      [WroteStop(0), WroteArm(SwapIf(p.cmdSwap, ARM_MAGIC)),
       WroteOther(ADDR_REG, SwapIf(p.addrSwap, dmaAddr)), WroteOther(LEN_REG, SwapIf(p.cmdSwap, FRAME_SIZE))]
    }

    /** What a START that is not refused at once returns. */
    ghost function LaunchRet(p: Params, l: Launching): Ret
      reads this`dmaAddr
    {
      if l.stop != Ok then l.stop
      else if VerifyRet(p, l.echo, l.ready) != Ok then EIO
      else l.master
    }

    /** What it has written by then: a failed check is followed by a STOP, a failed Bus Master is not. */
    ghost function LaunchWrites(p: Params, l: Launching): seq<Event>
      requires BufferOk()
      reads this`bufsAllocated, this`cpuMapped, this`bufferSize, this`dmaAddr
    {
      if l.stop != Ok then [WroteStop(0)]
      else if VerifyRet(p, l.echo, l.ready) != Ok then SetupWrites(p) + [WroteStop(0)]
      else if l.master != Ok then SetupWrites(p)
      else SetupWrites(p) + [WroteStart(SwapIf(p.cmdSwap, 1))]
    }

    /** The polls and reads were what they say. */
    ghost predicate LaunchSeen(p: Params, l: Launching) {
      && PollEnds(StopPoll(VERSION), l.stopSeen, l.stop)
      && (l.stop == Ok ==> Took(l.ready, STATUS_REG) && (p.verifyReadback ==> Took(l.echo, ADDR_ECHO0_REG)))
      && (l.master != Ok || l.masterSeen != [] ==> PollEnds(MasterPoll(VERSION), l.masterSeen, l.master))
    }

    predicate StartRefused(p: Params)
      reads this`bufsAllocated
    {
      p.blockUnsafe || !p.allowStart || p.dmaLen != FRAME_SIZE || !bufsAllocated
    }

    /** `colorbar_start_locked`. Its result is decided by what the registers read as; with read-back on,
        success means that the engine was programmed with the buffer's address. */
    method Start(p: Params) returns (ret: Ret, ghost l: Launching)
      requires Valid()
      modifies this`b, this`log, this`started, this`frameReady, this`frameCounter, this`lastBufferIndex, this`aim
      ensures Valid()
      ensures ret == Ok ==> p.allowStart && !p.blockUnsafe && BufferOk() && started && !frameReady
      ensures Mon().starts == old(Mon()).starts + (if ret == Ok then 1 else 0)
      ensures p.blockUnsafe || !p.allowStart ==> ret == EPERM
      ensures StartRefused(p) ==>
                && ret == (if p.blockUnsafe || !p.allowStart then EPERM else EINVAL)
                && b == old(b) && started == old(started) && aim == old(aim) && log == old(log)
      ensures !StartRefused(p) ==>
                && BufferOk() && LaunchSeen(p, l) && ret == LaunchRet(p, l)
                && Written() == old(Written()) + LaunchWrites(p, l)
                && (ret != Ok ==> !started)
      ensures ret != Ok ==> frameReady == old(frameReady)
      ensures ret == Ok && p.verifyReadback ==> aim == SwapIf(p.readSwap, dmaAddr)
      ensures ret == Ok ==> Mon().addrs == [dmaAddr] && Mon().verify == p.verifyReadback
    {
      hide Watch, WritesOf, BoardOk, Flight, QuietBus, GuardFilled, Aims, SwapIf, SetupWrites, VerifyRet, LaunchSeen;
      hide Valid, BusOk, LogOk, Mon, Written, LaunchRet, LaunchWrites;
      Between();
      l := Launching([], EINVAL, Probe(b, false, 0), Probe(b, false, 0), [], EINVAL);
      if p.blockUnsafe || !p.allowStart {
        return EPERM, l;
      }
      if p.dmaLen != FRAME_SIZE || !bufsAllocated || bufferSize < BUFFER_SIZE {
        return EINVAL, l;
      }
      ghost var a: u32;
      ret, l, a := Launch(p);
      if ret == Ok {
        BeginFrame(a);
      } else {
        StoppedValid();
      }
    }

    lemma Between()
      requires Valid()
      ensures BusOk() && LogOk() && FieldsOk() && (bufsAllocated <==> BufferOk()) && (BufferOk() || NoBuffer())
      ensures bufsAllocated ==> bufferSize == BUFFER_SIZE
    {
    }

    lemma StoppedValid()
      requires BusOk() && LogOk() && FieldsOk() && BufferOk() && !started && !b.busMaster
      ensures Valid()
    {
    }

    /** The fields after START was written. */
    method BeginFrame(ghost a: u32)
      requires BusOk() && LogOk() && BufferOk() && b.busMaster
      requires Flight(b) && GuardFilled(b.base) && Aims(b.c.s, a)
      modifies this`started, this`frameReady, this`frameCounter, this`lastBufferIndex, this`aim
      ensures Valid() && started && !frameReady && aim == a
    {
      hide Watch, WritesOf, BoardOk, Flight, QuietBus, GuardFilled, Aims;
      started, frameReady, frameCounter, lastBufferIndex := true, false, 0, 0;
      aim := a;
    }

    /** Configuration, Bus Master, START. */
    method Launch(p: Params) returns (ret: Ret, ghost l: Launching, ghost a: u32)
      requires BusOk() && LogOk() && BufferOk()
      modifies this`b, this`log, this`started
      ensures BusOk() && LogOk() && !started && b.busMaster == (ret == Ok)
      ensures LaunchSeen(p, l) && ret == LaunchRet(p, l) && Written() == old(Written()) + LaunchWrites(p, l)
      ensures Mon().starts == old(Mon()).starts + (if ret == Ok then 1 else 0)
      ensures ret == Ok ==>
                && Flight(b) && GuardFilled(b.base) && Aims(b.c.s, a)
                && Mon().addrs == [dmaAddr] && Mon().verify == p.verifyReadback
      ensures ret == Ok && p.verifyReadback ==> a == SwapIf(p.readSwap, dmaAddr)
    {
      hide Watch, WritesOf, NextBoard, BoardOk, Calm, Flight, QuietBus, Swab32, SwapIf, GuardFilled, Holds, Aims;
      hide SetupWrites, VerifyRet, PollEnds, Took;
      ret, l := Configure(p);
      a := b.c.s.host.addr0;
      Self(b.c.s);
      if ret != Ok {
        return;
      }
      if p.verifyReadback {
        a := SwapIf(p.readSwap, dmaAddr);
      }
      var r, masterSeen := MasterOnAndVisible(a);
      ret := r;
      l := l.(master := r, masterSeen := masterSeen);
      if ret != Ok {
        SetMaster(false);
        return;
      }
      IoWrite(START_REG, SwapIf(p.cmdSwap, 1), a);
    }

    lemma Self(s: Regs)
      ensures Holds(s, s.host.addr0)
    {
    }

    /** A new call: Bus Master off, the engine stopped, the buffer filled. */
    method Halt(p: Params) returns (ret: Ret, ghost seen: seq<u32>)
      requires BusOk() && LogOk() && BufferOk()
      modifies this`b, this`log, this`started
      ensures BusOk() && LogOk() && !b.busMaster && !started && NoNewStart(old(Mon()), Mon())
      ensures PollEnds(StopPoll(VERSION), seen, ret)
      ensures ret == Ok ==>
                && Calm(b) && b.sent == [] && GuardFilled(b.base)
                && Mon().acked && Mon().verify == p.verifyReadback && Mon().addrs == [dmaAddr]
      ensures Written() == old(Written()) + [WroteStop(0)]
    {
      hide Watch, WritesOf, NextBoard, BoardOk, Calm, QuietBus, GuardFilled, Bit, PollEnds;
      Note(CallBegins(p.verifyReadback, [dmaAddr]));
      SetMaster(false);
      ret, seen := StopWait();
      if ret != Ok {
        SetMaster(false);
        return;
      }
      Prefill();
    }

    /** A START that fails after programming: STOP, Bus Master off. */
    method Abandon()
      requires BusOk() && LogOk()
      modifies this`b, this`log, this`started
      ensures BusOk() && LogOk() && !b.busMaster && !started && NoNewStart(old(Mon()), Mon())
      ensures Written() == old(Written()) + [WroteStop(0)]
    {
      hide Watch, WritesOf, NextBoard, BoardOk, Calm, QuietBus;
      var r, seen := StopWait();
      SetMaster(false);
    }

    /** The magic, the address and the length. */
    method Program(p: Params)
      requires BusOk() && LogOk() && BufferOk() && Calm(b) && Mon().acked
      modifies this`b, this`log
      ensures BusOk() && LogOk() && Calm(b) && NoNewStart(old(Mon()), Mon())
      ensures b.busMaster == old(b.busMaster) && b.base == old(b.base) && b.sent == old(b.sent)
      ensures SameCallAs(old(Mon()), Mon()) && Mon().echoes == 0
      ensures Written() == old(Written()) + SetupWrites(p)[1..]
    {
      hide Watch, WritesOf, NextBoard, BoardOk, Calm, QuietBus, Swab32, SwapIf;
      WriteSetup(ARM_REG, SwapIf(p.cmdSwap, ARM_MAGIC));
      WriteSetup(ADDR_REG, SwapIf(p.addrSwap, dmaAddr));
      WriteSetup(LEN_REG, SwapIf(p.cmdSwap, FRAME_SIZE));
    }

    /** From the first Bus Master off to the verified configuration. */
    method Configure(p: Params) returns (ret: Ret, ghost l: Launching)
      requires BusOk() && LogOk() && BufferOk()
      modifies this`b, this`log, this`started
      ensures BusOk() && LogOk() && !b.busMaster && !started && NoNewStart(old(Mon()), Mon())
      ensures l.master == Ok && l.masterSeen == [] && LaunchSeen(p, l) && ret == LaunchRet(p, l)
      ensures ret != Ok ==> Written() == old(Written()) + LaunchWrites(p, l)
      ensures ret == Ok ==>
                && Calm(b) && b.sent == [] && GuardFilled(b.base)
                && var m := Mon();
                   m.ready && m.verify == p.verifyReadback && m.addrs == [dmaAddr] && (m.verify ==> m.echoes == BUFFERS)
      ensures ret == Ok && p.verifyReadback ==> Holds(b.c.s, SwapIf(p.readSwap, dmaAddr))
      ensures ret == Ok ==> Written() == old(Written()) + SetupWrites(p)
    {
      hide Watch, WritesOf, Observe, NextBoard, BoardOk, Calm, QuietBus, GuardFilled, SwapIf, PollEnds, Took, Holds;
      assert SetupWrites(p) == [WroteStop(0)] + SetupWrites(p)[1..];
      hide SetupWrites;
      var r, seen := Halt(p);
      ret, l := r, Launching(seen, r, Probe(b, false, 0), Probe(b, false, 0), [], Ok);
      if ret != Ok {
        return;
      }
      Program(p);
      ghost var echo, ready;
      ret, echo, ready := VerifyReadback(p);
      l := l.(echo := echo, ready := ready);
      if ret != Ok {
        Abandon();
      }
    }

    /** Bus Master on, and wait until the FPGA reports that it sees it. */
    method MasterOnAndVisible(ghost a: u32) returns (ret: Ret, ghost seen: seq<u32>)
      requires BusOk() && LogOk() && Calm(b) && Mon().ready
      modifies this`b, this`log
      ensures BusOk() && LogOk() && Calm(b) && NoNewStart(old(Mon()), Mon()) && b.busMaster
      ensures b.base == old(b.base) && b.sent == old(b.sent) && (old(Holds(b.c.s, a)) ==> Holds(b.c.s, a))
      ensures var (m, n) := (old(Mon()), Mon());
              n.ready && SameCallAs(m, n) && n.echoes == m.echoes && (ret == Ok ==> n.visible)
      ensures PollEnds(MasterPoll(VERSION), seen, ret) && seen != []
      ensures Written() == old(Written())
    {
      hide Watch, WritesOf, NextBoard, BoardOk, Took, Saws;
      SetMaster(true);
      ghost var b0 := b;
      var r, status, pre, post, seen1, pr := WaitStatus(MasterPoll(VERSION));
      ret, seen := r, seen1;
      CalmRead(b0, pre, post);
      HoldsRead(b0, pre, post, a);
      if ret == Ok {
        PollMet(MasterPoll(VERSION), seen, ret);
        assert MasterVisible(status, VERSION) by {
          assert DMA_ENABLE in {DMA_ENABLE};
        }
      }
    }

    // -------------------------------------------------------------- WAIT_FRAME

    /** `colorbar_read_cmd32` with a transfer in flight. */
    method ReadCmd(p: Params, reg: nat) returns (v: u32, ghost pr: Probe)
      requires BusOk() && reg < 0x1000 && Flight(b) && Aims(b.c.s, aim)
      modifies this`b
      ensures BusOk() && Flight(b) && Aims(b.c.s, aim) && b.busMaster == old(b.busMaster) && b.base == old(b.base)
      ensures BoardOk(pr.at) && Flight(pr.at) && Aims(pr.at.c.s, aim) && Onward(old(b), pr.at) && Onward(pr.at, b)
      ensures v == SwapIf(p.readSwap, pr.raw) && Took(pr, reg)
    {
      hide Watch, WritesOf, NextBoard, BoardOk, Flight, QuietBus, SwapIf, Aims, Took;
      ghost var b0 := b;
      var raw, pre, post, pr0 := IoRead(reg);
      pr := pr0;
      QuietlyOk(b0, pre);
      OnwardQuietly(b0, pre);
      QuietlyAims(b0, pre, aim);
      QuietlyOk(pr.at, post);
      OnwardQuietly(pr.at, post);
      QuietlyAims(pr.at, post, aim);
      v := SwapIf(p.readSwap, raw);
    }

    /** Every progress register was read from an engine that still shows DONE for this buffer. */
    ghost predicate SeesFrame(p: Params, w: Finish)
      reads this`dmaAddr, this`aim
    {
      && !p.readSwap && Answered(w.addr) && Answered(w.len) && Answered(w.sent)
      && w.sent.at.c.s.host.done && aim == dmaAddr
    }

    /** The boards at which the three registers were captured, one after the other. */
    ghost predicate ProgressRead(w: Finish)
      reads this`aim
    {
      && Took(w.addr, ACTIVE_ADDR_REG) && Took(w.len, ACTIVE_LEN_REG) && Took(w.sent, BYTES_SENT_REG)
      && BoardOk(w.addr.at) && BoardOk(w.len.at) && BoardOk(w.sent.at)
      && Flight(w.addr.at) && Flight(w.len.at) && Flight(w.sent.at)
      && Aims(w.addr.at.c.s, aim) && Aims(w.len.at.c.s, aim) && Aims(w.sent.at.c.s, aim)
      && Onward(w.addr.at, w.len.at) && Onward(w.len.at, w.sent.at) && DoneOrLost(w.addr.at.c.s)
    }

    ghost predicate ReadsAsFrame(p: Params, w: Finish)
      reads this`dmaAddr
    {
      && SwapIf(p.readSwap, w.addr.raw) == dmaAddr && SwapIf(p.readSwap, w.len.raw) == FRAME_SIZE
      && SwapIf(p.readSwap, w.sent.raw) == FRAME_SIZE
    }

    lemma DoneRegisters(at: Board)
      requires BoardOk(at) && Flight(at) && Aims(at.c.s, aim) && at.c.s.host.done
      ensures RegValue(at.c.s, ACTIVE_ADDR_REG) == aim && RegValue(at.c.s, ACTIVE_LEN_REG) == FRAME_SIZE
      ensures RegValue(at.c.s, BYTES_SENT_REG) == FRAME_SIZE
    {
      hide BoardOk, Flight;
      DoneInFlight(at);
    }

    lemma EarlierDone(a: Board, d: Board)
      requires BoardOk(d) && Onward(a, d) && DoneOrLost(a.c.s) && d.c.s.host.done
      ensures a.c.s.host.done
    {
    }

    /** The registers read as the finished frame exactly when it is there to be seen. */
    lemma ProgressExactly(p: Params, w: Finish)
      requires ProgressRead(w) && BufferOk()
      ensures ReadsAsFrame(p, w) <==> SeesFrame(p, w)
      ensures SeesFrame(p, w) ==> w.addr.at.c.s.host.done && w.len.at.c.s.host.done
    {
      hide BoardOk, Flight, Aims, Onward, RegValue, DoneOrLost;
      if SeesFrame(p, w) {
        SeenReads(p, w);
      }
      if ReadsAsFrame(p, w) {
        ReadsSeen(p, w);
      }
    }

    lemma SeenReads(p: Params, w: Finish)
      requires ProgressRead(w) && SeesFrame(p, w)
      ensures ReadsAsFrame(p, w) && w.addr.at.c.s.host.done && w.len.at.c.s.host.done
    {
      hide BoardOk, Flight, Aims, Onward, RegValue, DoneOrLost, SwapIf;
      DoneOnward(w.addr.at, w.len.at);
      EarlierDone(w.len.at, w.sent.at);
      EarlierDone(w.addr.at, w.len.at);
      DoneRegisters(w.addr.at);
      DoneRegisters(w.len.at);
      DoneRegisters(w.sent.at);
      Plain(p);
    }

    lemma Plain(p: Params)
      requires !p.readSwap
      ensures forall raw: u32 :: SwapIf(p.readSwap, raw) == raw
    {
    }

    lemma ReadsSeen(p: Params, w: Finish)
      requires ProgressRead(w) && ReadsAsFrame(p, w) && BufferOk()
      ensures SeesFrame(p, w)
    {
      hide BoardOk, Flight, Onward, DoneOrLost;
      LengthRead(p, w.len);
      Plain(p);
      DoneOnward(w.addr.at, w.len.at);
      DoneOnward(w.len.at, w.sent.at);
      NotLost(w.sent.at);
      EarlierDone(w.len.at, w.sent.at);
      EarlierDone(w.addr.at, w.len.at);
    }

    lemma NotLost(at: Board)
      requires DoneOrLost(at.c.s) && at.c.s.host.bytesSent == FRAME_SIZE
      ensures at.c.s.host.done
    {
    }

    lemma LengthRead(p: Params, len: Probe)
      requires Took(len, ACTIVE_LEN_REG) && BoardOk(len.at) && SwapIf(p.readSwap, len.raw) == FRAME_SIZE
      ensures !p.readSwap
    {
      LengthReadBack(len.at.c.s.host.activeLen, len.raw, p.readSwap);
    }

    /** `colorbar_check_guard_locked`. */
    method CheckGuard() returns (ret: Ret)
      ensures ret == if GuardFilled(b.mem) then Ok else EIO
    {
      var guard := dmaAddr + FRAME_SIZE;
      var i: nat := 0;
      while i < GUARD_SIZE
        invariant i <= GUARD_SIZE
        invariant forall x | guard <= x < guard + i :: b.mem(x) == PREFILL
      {
        if b.mem(guard + i) != PREFILL {
          return EIO;
        }
        i := i + 1;
      }
      ret := Ok;
    }

    /** What a wait for a frame comes to. */
    ghost function FinishRet(p: Params, w: Finish): Ret
      reads this`dmaAddr, this`aim
    {
      if w.poll != Ok then w.poll else if SeesFrame(p, w) then Ok else EIO
    }

    /** The three progress registers. */
    method ReadProgress(p: Params) returns (addr: u32, len: u32, sent: u32, ghost w: Finish)
      requires BusOk() && LogOk() && Flight(b) && Aims(b.c.s, aim)
      modifies this`b
      ensures BusOk() && LogOk() && Flight(b) && Aims(b.c.s, aim)
      ensures b.busMaster == old(b.busMaster) && b.base == old(b.base)
      ensures old(DoneOrLost(b.c.s)) ==> ProgressRead(w)
      ensures Onward(old(b), w.addr.at) && Onward(old(b), w.len.at) && Onward(w.len.at, b) && Onward(old(b), b)
      ensures BoardOk(w.len.at) && Flight(w.len.at)
      ensures addr == SwapIf(p.readSwap, w.addr.raw) && len == SwapIf(p.readSwap, w.len.raw)
      ensures sent == SwapIf(p.readSwap, w.sent.raw)
    {
      hide Watch, WritesOf, NextBoard, BoardOk, Flight, Onward, QuietBus, SwapIf, RegValue, Aims, Took, DoneOrLost;
      ghost var b1 := b;
      var a, pr1 := ReadCmd(p, ACTIVE_ADDR_REG);
      ghost var b2 := b;
      var l, pr2 := ReadCmd(p, ACTIVE_LEN_REG);
      ghost var b3 := b;
      var n, pr3 := ReadCmd(p, BYTES_SENT_REG);
      addr, len, sent, w := a, l, n, Finish([], Ok, pr1, pr2, pr3);
      OnwardTrans(pr1.at, b2, pr2.at);
      OnwardTrans(pr2.at, b3, pr3.at);
      OnwardTrans(b1, pr1.at, pr2.at);
      OnwardTrans(pr2.at, pr3.at, b);
      OnwardTrans(b1, pr2.at, b);
      if DoneOrLost(b1.c.s) {
        DoneOnward(b1, pr1.at);
      }
    }

    /** `colorbar_finish_frame_locked`. A frame is accepted exactly when the poll saw it done and the
        registers were read, unswapped and answered, while the engine still showed it done at this
        buffer; the guard is then always intact. */
    method FinishFrame(p: Params) returns (ret: Ret, ghost w: Finish)
      requires BusOk() && LogOk() && BufferOk() && Flight(b) && Aims(b.c.s, aim) && GuardFilled(b.base)
      modifies this`b, this`log
      ensures BusOk() && LogOk() && NoNewStart(old(Mon()), Mon())
      ensures b.busMaster == old(b.busMaster) && b.base == old(b.base)
      ensures PollEnds(DonePoll(VERSION), w.seen, w.poll) && log == old(log) + Saws(w.seen) && ret == FinishRet(p, w)
      ensures w.poll == Ok ==> ProgressRead(w)
      ensures ret == Ok ==>
                && Onward(old(b), w.len.at) && Onward(w.len.at, b)
                && w.len.at.c.s.host.done && w.len.at.c.s.host.activeAddr == dmaAddr
                && w.len.at.c.s.host.activeLen == FRAME_BYTES && Delivered(b, dmaAddr)
      ensures Written() == old(Written())
    {
      hide Watch, WritesOf, NextBoard, BoardOk, Flight, Onward, Delivered, QuietBus, SwapIf, RegValue, Aims, Took;
      hide ProgressRead, SeesFrame, PollEnds, Saws, DoneOrLost, GuardFilled;
      ghost var b0 := b;
      var r, status, pre, post, seen, pr := WaitStatus(DonePoll(VERSION));
      ret := r;
      PollMet(DonePoll(VERSION), seen, r);
      ghost var at := AfterQuiet(b0, pre);
      FlightRead(b0, pre, post);
      if ret != Ok || !ErrorFree(status) {
        var a, l, n;
        a, l, n, w := ReadProgress(p);
        w := w.(seen := seen, poll := r);
        return if ret != Ok then ret else EIO, w;
      }
      DoneBitMeansDone(at, status);
      DoneOnward(at, b);
      ghost var b1 := b;
      var addr, len, sent;
      addr, len, sent, w := ReadProgress(p);
      SameProgress(w, seen, r);
      w := w.(seen := seen, poll := r);
      ProgressExactly(p, w);
      if addr != dmaAddr || len != FRAME_SIZE || sent != FRAME_SIZE {
        return EIO, w;
      }
      OnwardTrans(b0, at, b1);
      OnwardTrans(b0, b1, w.len.at);
      SeenDone(p, w);
      DeliveredOnward(w.len.at, b, dmaAddr);
      GuardIntact(b);
      ret := CheckGuard();
    }

    lemma FlightRead(b0: Board, pre: seq<In>, post: seq<In>)
      requires BoardOk(b0) && Flight(b0) && Quietly(b0, pre) && Quietly(AfterQuiet(b0, pre), post) && Aims(b0.c.s, aim)
      ensures var (at, d) := (AfterQuiet(b0, pre), AfterQuiet(AfterQuiet(b0, pre), post));
              && BoardOk(at) && Flight(at) && Flight(d) && Aims(d.c.s, aim)
              && Onward(b0, at) && Onward(at, d) && d.base == b0.base && d.busMaster == b0.busMaster
    {
      hide BoardOk, Flight, Onward, Aims;
      var at := AfterQuiet(b0, pre);
      QuietlyOk(b0, pre);
      OnwardQuietly(b0, pre);
      QuietlyAims(b0, pre, aim);
      QuietlyOk(at, post);
      OnwardQuietly(at, post);
      QuietlyAims(at, post, aim);
    }

    lemma SameProgress(w: Finish, seen: seq<u32>, poll: Ret)
      requires ProgressRead(w)
      ensures ProgressRead(w.(seen := seen, poll := poll))
    {
    }

    lemma SeenDone(p: Params, w: Finish)
      requires ProgressRead(w) && SeesFrame(p, w) && w.len.at.c.s.host.done && BufferOk()
      ensures Delivered(w.len.at, dmaAddr)
      ensures w.len.at.c.s.host.activeAddr == dmaAddr && w.len.at.c.s.host.activeLen == FRAME_BYTES
    {
      hide BoardOk, Flight, Onward, Delivered;
      DoneInFlight(w.len.at);
    }

    lemma GuardIntact(d: Board)
      requires BoardOk(d) && BufferOk() && Delivered(d, dmaAddr) && GuardFilled(d.base)
      ensures GuardFilled(d.mem)
    {
      hide BoardOk;
      DeliveredIsReceived(d, dmaAddr);
    }

    /** A finished frame is counted and the result copied to the caller. */
    method TakeFrame(p: Params) returns (ret: Ret, info: FrameInfo, ghost w: Finish)
      requires BusOk() && LogOk() && BufferOk() && Flight(b) && Aims(b.c.s, aim) && GuardFilled(b.base)
      modifies this`b, this`log, this`frameReady, this`frameCounter, this`lastBufferIndex
      ensures BusOk() && LogOk() && NoNewStart(old(Mon()), Mon()) && b.base == old(b.base)
      ensures PollEnds(DonePoll(VERSION), w.seen, w.poll) && log == old(log) + Saws(w.seen)
      ensures w.poll == Ok ==> ProgressRead(w)
      ensures if FinishRet(p, w) == Ok then ret in {Ok, EFAULT} else ret == FinishRet(p, w)
      ensures if FinishRet(p, w) == Ok then frameReady && frameCounter == old(frameCounter) + 1 && lastBufferIndex == 0
              else && frameReady == old(frameReady) && frameCounter == old(frameCounter)
                   && lastBufferIndex == old(lastBufferIndex)
      ensures ret == Ok ==>
                && info == FrameInfo(0, old(frameCounter) + 1, FRAME_SIZE) && Delivered(b, dmaAddr)
                && !p.readSwap && Onward(old(b), w.len.at) && w.len.at.c.s.host.done
                && w.len.at.c.s.host.activeAddr == dmaAddr && w.len.at.c.s.host.activeLen == FRAME_BYTES
      ensures Written() == old(Written())
    {
      hide Watch, WritesOf, NextBoard, BoardOk, Flight, Onward, Delivered, QuietBus, PollEnds, ProgressRead, Aims;
      info := FrameInfo(0, 0, 0);
      ret, w := FinishFrame(p);
      if ret == Ok {
        frameCounter, lastBufferIndex, frameReady := frameCounter + 1, 0, true;
        info := FrameInfo(lastBufferIndex, frameCounter, FRAME_SIZE);
        ret := CopyToUser();
      }
    }

    /** COLORBAR_IOC_WAIT_FRAME. A frame is handed over exactly when it was accepted, and was then written
        whole, by the TLPs of one START, into this driver's buffer; its guard and everything else in
        memory is as START left it. */
    method WaitFrame(p: Params) returns (ret: Ret, info: FrameInfo, ghost w: Finish)
      requires Valid()
      modifies this`b, this`log, this`started, this`frameReady, this`frameCounter, this`lastBufferIndex
      ensures Valid() && !started && Mon().starts == old(Mon()).starts
      ensures !old(started) ==> ret == EINVAL && frameReady == old(frameReady) && b == old(b)
      ensures old(started) ==>
                && PollEnds(DonePoll(VERSION), w.seen, w.poll) && (w.poll == Ok ==> ProgressRead(w))
                && (if FinishRet(p, w) == Ok then ret in {Ok, EFAULT} else ret == FinishRet(p, w))
                && frameReady == (FinishRet(p, w) == Ok)
      ensures ret == Ok ==>
                && old(started) && BufferOk() && frameReady && b.base == old(b.base)
                && FrameReceived(b, dmaAddr) && GuardFilled(b.mem)
                && info == FrameInfo(0, 1, FRAME_SIZE)
      ensures ret == Ok ==>
                && !p.readSwap && Onward(old(b), w.len.at) && w.len.at.c.s.host.done
                && w.len.at.c.s.host.activeAddr == dmaAddr && w.len.at.c.s.host.activeLen == FRAME_BYTES
      ensures Written() == old(Written()) + if old(started) then [WroteStop(0)] else []
    {
      hide Watch, WritesOf, NextBoard, BoardOk, Flight, Onward, Delivered, QuietBus, PollEnds, ProgressRead, Aims;
      hide SeesFrame, FinishRet, GuardFilled;
      info := FrameInfo(0, 0, 0);
      w := Finish([], EINVAL, Probe(b, false, 0), Probe(b, false, 0), Probe(b, false, 0));
      if !started {
        return EINVAL, info, w;
      }
      ret, info, w := TakeFrame(p);
      ghost var b1 := b;
      StopLocked();
      if ret == Ok {
        StoppedDelivery(b1, b);
      }
    }

    lemma StoppedDelivery(b1: Board, b2: Board)
      requires BoardOk(b2) && BufferOk() && Delivered(b1, dmaAddr) && GuardFilled(b1.base) && b2.base == b1.base
      requires Parked(b1.c) ==> Parked(b2.c) && b2.sent == b1.sent && b2.mem == b1.mem
      ensures FrameReceived(b2, dmaAddr) && GuardFilled(b2.mem)
    {
      hide Watch, WritesOf, BoardOk;
      DeliveredIsReceived(b2, dmaAddr);
    }

    /** COLORBAR_IOC_STOP and COLORBAR_IOC_SAFE_STOP. */
    method Stop()
      requires Valid()
      modifies this`b, this`log, this`started
      ensures Valid() && !started && Mon().starts == old(Mon()).starts
      ensures !old(started) && old(Parked(b.c)) ==> b.mem == old(b.mem)
      ensures Written() == old(Written()) + [WroteStop(0)]
    {
      hide Watch, WritesOf, NextBoard, BoardOk, Flight, QuietBus;
      StopLocked();
    }

    /** `colorbar_free_buffers_locked`. */
    method FreeBuffers()
      requires BusOk() && LogOk() && !b.busMaster
      modifies this`cpuMapped, this`dmaAddr, this`bufsAllocated, this`bufferSize
      modifies this`started, this`frameReady, this`frameCounter, this`lastBufferIndex
      ensures NoBuffer() && !frameReady && frameCounter == 0 && lastBufferIndex == 0 && dmaAddr == 0
    {
      cpuMapped, dmaAddr, bufsAllocated, bufferSize := false, 0, false, 0;
      started, frameReady, frameCounter, lastBufferIndex := false, false, 0, 0;
    }

    /** COLORBAR_IOC_FREE_BUFS: the buffer goes only after Bus Master is off. */
    method Free()
      requires Valid()
      modifies this
      ensures Valid() && NoBuffer() && !b.busMaster && Mon().starts == old(Mon()).starts
      ensures Written() == old(Written()) + [WroteStop(0)]
    {
      hide Watch, WritesOf, NextBoard, BoardOk, Flight, QuietBus;
      StopLocked();
      FreeBuffers();
    }

    /** COLORBAR_IOC_ALLOC_BUFS: `dma_alloc_coherent` may fail, or hand out an address that the
        range check refuses. A buffer accepted is filled, and nothing beside it is touched. */
    method Alloc(p: Params) returns (ret: Ret, ghost offer: Offer)
      requires Valid()
      modifies this
      ensures Valid() && log == old(log)
      ensures ret == if p.dmaLen != FRAME_SIZE then EINVAL
                     else if old(bufsAllocated) || Usable(offer) then Ok
                     else ENOMEM
      ensures ret == Ok ==> BufferOk() && b.busMaster == old(b.busMaster)
      ensures old(bufsAllocated) ==> b == old(b) && dmaAddr == old(dmaAddr) && bufsAllocated && started == old(started)
      ensures !old(bufsAllocated) && ret == Ok ==>
                && dmaAddr == offer.addr
                && forall x :: b.mem(x) == if dmaAddr <= x < dmaAddr + BUFFER_SIZE then PREFILL else old(b).mem(x)
      ensures !old(bufsAllocated) && ret != Ok ==> NoBuffer() && b == old(b)
    {
      hide Watch, WritesOf, NextBoard, BoardOk, Flight, QuietBus;
      offer := NoMemory;
      if p.dmaLen != FRAME_SIZE {
        return EINVAL, offer;
      }
      if bufsAllocated {
        if bufferSize == BUFFER_SIZE {
          return Ok, offer;
        }
        assert false;
      }
      bufferSize := BUFFER_SIZE;
      var got: bool := *;
      var addr: nat := *;
      offer := if got then Memory(addr) else NoMemory;
      cpuMapped, dmaAddr := got, addr;
      if !got || dmaAddr >= TWO32 || dmaAddr % 64 != 0 || dmaAddr + FRAME_SIZE > TWO32 {
        FreeBuffers();
        return ENOMEM, offer;
      }
      FillBuffer();
      bufsAllocated := true;
      ret := Ok;
    }

    /** `memset` on a fresh buffer. */
    method FillBuffer()
      requires BusOk() && LogOk()
      modifies this`b
      ensures BusOk() && LogOk() && b.busMaster == old(b.busMaster)
      ensures b.mem == Fill(old(b.mem), dmaAddr, bufferSize, PREFILL)
    {
      var m := Fill(b.mem, dmaAddr, bufferSize, PREFILL);
      b := b.(mem := m, base := m, sent := []);
    }

    /** `colorbar_read`: the copied bytes and the new file position. */
    method Read(pos: int, count: nat) returns (ret: Ret, data: seq<byte>, newPos: int)
      requires Valid()
      ensures ret == EINVAL <==> !frameReady
      ensures ret != Ok ==> newPos == pos && data == []
      ensures ret == Ok ==> newPos == pos + |data|
      ensures ret == Ok ==> |data| == if 0 <= pos < FRAME_SIZE then Min(count, FRAME_SIZE - pos) else 0
      ensures ret == Ok ==> forall k | 0 <= k < |data| :: data[k] == b.mem(dmaAddr + pos + k)
    {
      ret, data, newPos := EINVAL, [], pos;
      if !bufsAllocated || !frameReady {
        return;
      }
      ret := Ok;
      if pos < 0 || pos >= FRAME_SIZE {
        return;
      }
      var toCopy := Min(count, FRAME_SIZE - pos);
      ret := CopyToUser();
      if ret == Ok {
        var m, src := b.mem, dmaAddr + pos;
        data := seq(toCopy, k => m(src + k));
        newPos := pos + toCopy;
      }
    }

    /** A fresh device after `probe`, with the FPGA in any state it reaches on its own. */
    constructor (start: Board)
      requires BoardOk(start) && QuietBus(start.c.s) && !start.busMaster
      ensures Valid() && !started && !bufsAllocated && b == start && Mon() == NOTHING_SEEN
    {
      b, log := start, [];
      cpuMapped, dmaAddr, bufsAllocated, bufferSize := false, 0, false, 0;
      started, frameReady, frameCounter, lastBufferIndex := false, false, 0, 0;
      aim := 0;
    }
  }
}
