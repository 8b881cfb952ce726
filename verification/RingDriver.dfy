/** The four-buffer ring driver, colorbar_pcie_driver.c for protocol 0x0B: its ioctls and its read
    as methods of one object, over the FPGA of `RingFpga`. */
module RingDriver {
  import opened Words
  import opened HostMemory
  import opened DmaEngine
  import opened DriverLog
  import opened RingFpga

  // ---------------------------------------------------------------- coherent allocations

  /** `cpu` is 0 for NULL. */
  datatype Buf = Buf(cpu: nat, dma: nat)

  datatype Block = Block(dma: nat, size: nat)

  predicate Apart(a: Block, b: Block) { a.dma + a.size <= b.dma || b.dma + b.size <= a.dma }

  type Heap = map<nat, Block>

  /** Every mapped buffer is an outstanding allocation of `size` bytes, and no other buffer's. */
  ghost predicate Mapped(bs: seq<Buf>, heap: Heap, size: nat) {
    && (forall i | 0 <= i < |bs| && bs[i].cpu != 0 :: bs[i].cpu in heap && heap[bs[i].cpu] == Block(bs[i].dma, size))
    && (forall i, j | 0 <= i < j < |bs| && bs[i].cpu != 0 :: bs[i].cpu != bs[j].cpu)
  }

  ghost predicate HeldBy(bs: seq<Buf>, cpu: nat) { exists i | 0 <= i < |bs| :: bs[i].cpu == cpu }

  /** No allocation is outstanding that no buffer holds. */
  ghost predicate NoLeak(bs: seq<Buf>, heap: Heap) {
    0 !in heap && forall k | k in heap :: HeldBy(bs, k)
  }

  ghost predicate Separate(heap: Heap) {
    forall j, k | j in heap && k in heap && j != k :: Apart(heap[j], heap[k])
  }

  /** The outstanding allocations are exactly the mapped buffers, no two overlapping. */
  ghost predicate Ledger(bs: seq<Buf>, heap: Heap, size: nat) {
    Mapped(bs, heap, size) && NoLeak(bs, heap) && Separate(heap)
  }

  lemma HeldAfterUpdate(bs: seq<Buf>, i: nat, b: Buf, cpu: nat)
    requires i < |bs| && HeldBy(bs, cpu) && bs[i].cpu != cpu
    ensures HeldBy(bs[i := b], cpu)
  {
    var j :| 0 <= j < |bs| && bs[j].cpu == cpu;
    assert bs[i := b][j].cpu == cpu;
  }

  lemma LedgerAlloc(bs: seq<Buf>, heap: Heap, size: nat, i: nat, b: Buf)
    requires Ledger(bs, heap, size) && i < |bs| && bs[i].cpu == 0 && b.cpu != 0 && b.cpu !in heap
    requires forall k | k in heap :: Apart(heap[k], Block(b.dma, size))
    ensures Ledger(bs[i := b], heap[b.cpu := Block(b.dma, size)], size)
  {
    hide Apart;
    var (bs', heap') := (bs[i := b], heap[b.cpu := Block(b.dma, size)]);
    forall k | k in heap' ensures HeldBy(bs', k) {
      if k == b.cpu {
        assert bs'[i].cpu == k;
      } else {
        HeldAfterUpdate(bs, i, b, k);
      }
    }
    assert Separate(heap') by {
      ApartSymmetric();
    }
  }

  lemma ApartSymmetric()
    ensures forall a, b :: Apart(a, b) <==> Apart(b, a)
  {
  }

  lemma LedgerFree(bs: seq<Buf>, heap: Heap, size: nat, i: nat)
    requires Ledger(bs, heap, size) && i < |bs| && bs[i].cpu != 0
    ensures Ledger(bs[i := Buf(0, 0)], heap - {bs[i].cpu}, size)
  {
    hide Apart;
    forall k | k in heap && k != bs[i].cpu ensures HeldBy(bs[i := Buf(0, 0)], k) {
      HeldAfterUpdate(bs, i, Buf(0, 0), k);
    }
  }

  /** An unmapped buffer's bus address does not matter. */
  lemma SameLedger(bs: seq<Buf>, heap: Heap, i: nat, b: Buf)
    requires Ledger(bs, heap, BUFFER_SIZE) && i < |bs| && bs[i].cpu == 0 && b.cpu == 0
    ensures Ledger(bs[i := b], heap, BUFFER_SIZE)
  {
    hide Apart;
    forall k | k in heap ensures HeldBy(bs[i := b], k) {
      HeldAfterUpdate(bs, i, b, k);
    }
  }

  lemma LedgerOfNone(bs: seq<Buf>, heap: Heap, size: nat)
    requires Ledger(bs, heap, size) && forall i | 0 <= i < |bs| :: bs[i].cpu == 0
    ensures heap == map[]
  {
  }

  /** An FPGA that lost its registers. */
  predicate Cleared(f: Fpga) { !f.running && f.activeLen == 0 && f.next == 0 && f.slots == [0, 0, 0, 0] }

  /** Slot `k` holds `a`, unless the FPGA was cleared. */
  predicate SlotSet(f: Fpga, k: Index, a: u32) { Cleared(f) || f.slots[k] == a }

  /** Time, seen from the driver: what was at rest stays at rest, a transfer stays inside its frame,
      and the address slots keep what they hold or are lost. */
  ghost predicate Later(f: Fpga, g: Fpga, base: Mem, target: u32) {
    && g.busMaster == f.busMaster
    && (Cleared(g) || (g.slots == f.slots && (!f.running ==> g.next == f.next)))
    && (!f.running ==> !g.running && g.mem == f.mem && (g.activeLen != 0 ==> g.active == f.active && f.activeLen != 0))
    && (Flying(f, base, target) ==> Flying(g, base, target))
  }

  lemma LaterTrans(f: Fpga, g: Fpga, h: Fpga, base: Mem, target: u32)
    requires Later(f, g, base, target) && Later(g, h, base, target)
    ensures Later(f, h, base, target)
  {
  }

  predicate BufOk(b: Buf) { b.cpu != 0 && b.dma % 64 == 0 && b.dma + FRAME_SIZE <= TWO32 }

  /** `dma_alloc_coherent` was asked for one buffer after the other, up to the first unusable one. */
  predicate AllUsable(offers: seq<Buf>) { |offers| == BUFFERS && forall k | 0 <= k < |offers| :: BufOk(offers[k]) }

  predicate OffersEnd(offers: seq<Buf>) {
    && 0 < |offers| <= BUFFERS && (forall k | 0 <= k < |offers| - 1 :: BufOk(offers[k]))
    && (|offers| < BUFFERS ==> !BufOk(offers[|offers| - 1]))
  }

  predicate InBuffer(b: Buf, x: int) { b.dma <= x < b.dma + BUFFER_SIZE }

  ghost predicate Prefilled(m: Mem, lo: int, hi: int) { forall x | lo <= x < hi :: m(x) == PREFILL }

  lemma PrefillKeeps(m: Mem, a: int, lo: int, hi: int)
    ensures Prefilled(m, lo, hi) ==> Prefilled(Fill(m, a, BUFFER_SIZE, PREFILL), lo, hi)
    ensures a <= lo && hi <= a + BUFFER_SIZE ==> Prefilled(Fill(m, a, BUFFER_SIZE, PREFILL), lo, hi)
  {
  }

  /** The buffer after `n` steps round the ring. */
  function Slot(n: nat): Index { n % BUFFERS }

  /** A `u32` counter `n` steps on. */
  function Counter(c: u32, n: nat): u32 { (c + n) % TWO32 }

  /** Frame `k` since configuration came from buffer `k mod 4` and was counted next. */
  predicate InOrder(handed: seq<FrameInfo>, counted: u32) {
    forall k | 0 <= k < |handed| :: handed[k] == FrameInfo(Slot(k), Counter(counted, k + 1), FRAME_SIZE)
  }

  lemma NextIndex(n: nat)
    ensures Slot(Slot(n) + 1) == Slot(n + 1)
  {
  }

  lemma InOrderSnoc(handed: seq<FrameInfo>, counted: u32, next: nat, counter: u32)
    requires InOrder(handed, counted)
    requires next == Slot(|handed|) && counter == Counter(counted, |handed|)
    ensures InOrder(handed + [FrameInfo(next, Counter(counter, 1), FRAME_SIZE)], counted)
    ensures Slot(next + 1) == Slot(|handed| + 1) && Counter(counter, 1) == Counter(counted, |handed| + 1)
  {
    NextIndex(|handed|);
    AddMod32(counted + |handed|, 1);
    LastInOrder(handed, counted, FrameInfo(next, Counter(counter, 1), FRAME_SIZE));
  }

  lemma LastInOrder(handed: seq<FrameInfo>, counted: u32, info: FrameInfo)
    requires InOrder(handed, counted)
    requires info == FrameInfo(Slot(|handed|), Counter(counted, |handed| + 1), FRAME_SIZE)
    ensures InOrder(handed + [info], counted)
  {
  }

  /** `struct colorbar_status_info`. */
  datatype Snapshot = Snapshot(
    raw: u32, status: u32, dmaAddrLow: u32, activeAddr: u32, activeLen: u32, bytesSent: u32, frameCounter: u32)

  /** One register read: the FPGA when it was captured, and what the host got. */
  datatype Capture = Capture(at: Fpga, raw: u32)

  predicate EchoRead(k: nat, e: Capture) { k < BUFFERS && Reads(e.at, ADDR_ECHO0_REG + 4 * k, 0, e.raw) }

  /** What decided a START that was not refused at once. On a configured ring there is no STOP. */
  datatype Launching = Launching(
    stopSeen: seq<u32>, stop: Ret, echoes: seq<Capture>, ready: Capture, masterSeen: seq<u32>, master: Ret)

  /** What decided a WAIT_FRAME. */
  datatype Finish = Finish(seen: seq<u32>, poll: Ret, addr: Capture, len: Capture, sent: Capture)

  // ---------------------------------------------------------------- what the driver makes of its reads

  /** An echo that reads as the address it should hold. */
  predicate EchoMatches(p: Params, addrs: seq<u32>, k: nat, e: Capture) {
    k < |addrs| && SwapIf(p.readSwap, e.raw) == addrs[k]
  }

  /** The echoes were read one after the other, up to the first mismatch. */
  predicate EchoesSeen(p: Params, addrs: seq<u32>, echoes: seq<Capture>) {
    && |echoes| <= BUFFERS && (forall k | 0 <= k < |echoes| :: EchoRead(k, echoes[k]))
    && (forall k | 0 <= k < |echoes| - 1 :: EchoMatches(p, addrs, k, echoes[k]))
    && (|echoes| < BUFFERS ==> echoes != [] && !EchoMatches(p, addrs, |echoes| - 1, echoes[|echoes| - 1]))
  }

  predicate AllMatch(p: Params, addrs: seq<u32>, echoes: seq<Capture>) {
    |echoes| == BUFFERS && forall k | 0 <= k < |echoes| :: EchoMatches(p, addrs, k, echoes[k])
  }

  /** What the reads before START decide. */
  function VerifyRet(p: Params, addrs: seq<u32>, echoes: seq<Capture>, ready: Capture, next: nat): Ret {
    if p.verifyReadback && !AllMatch(p, addrs, echoes) then EIO
    else if ReadyToStart(ready.raw, VERSION) && NextBuffer(ready.raw) == next then Ok
    else EIO
  }

  /** A status word as some state of the FPGA may give it. */
  ghost predicate StatusCaptured(c: Capture) { exists w: u32 :: Reads(c.at, STATUS_REG, w, c.raw) }

  /** What the polls and reads of a START decide, on a ring that was `configured` or not. */
  function LaunchRet(p: Params, addrs: seq<u32>, configured: bool, l: Launching, next: nat): Ret {
    if !configured && l.stop != Ok then l.stop
    else if VerifyRet(p, addrs, l.echoes, l.ready, next) != Ok then EIO
    else l.master
  }

  /** They were what they say. */
  ghost predicate LaunchSeen(p: Params, addrs: seq<u32>, configured: bool, l: Launching, next: nat) {
    && (!configured ==> PollEnds(StopPoll(VERSION), l.stopSeen, l.stop))
    && (configured || l.stop == Ok ==>
          && (p.verifyReadback ==> EchoesSeen(p, addrs, l.echoes)) && StatusCaptured(l.ready)
          && (VerifyRet(p, addrs, l.echoes, l.ready, next) == Ok ==>
                PollEnds(MasterPoll(VERSION), l.masterSeen, l.master)))
  }

  lemma Launched(p: Params, addrs: seq<u32>, configured: bool, l: Launching, next: nat, ret: Ret)
    requires configured || (l.stop == Ok && PollEnds(StopPoll(VERSION), l.stopSeen, l.stop))
    requires (p.verifyReadback ==> EchoesSeen(p, addrs, l.echoes)) && StatusCaptured(l.ready)
    requires var checked := VerifyRet(p, addrs, l.echoes, l.ready, next);
             && (checked == Ok ==> PollEnds(MasterPoll(VERSION), l.masterSeen, l.master))
             && ret == (if checked != Ok then checked else l.master)
    ensures LaunchSeen(p, addrs, configured, l, next) && ret == LaunchRet(p, addrs, configured, l, next)
  {
    hide PollEnds, EchoesSeen, StatusCaptured, AllMatch, ReadyToStart, NextBuffer;
  }

  lemma NeverStopped(p: Params, addrs: seq<u32>, l: Launching, next: nat)
    requires l.stop != Ok && PollEnds(StopPoll(VERSION), l.stopSeen, l.stop)
    ensures LaunchSeen(p, addrs, false, l, next) && l.stop == LaunchRet(p, addrs, false, l, next)
  {
    hide PollEnds;
  }

  /** The three registers read as the finished frame of the buffer at `dma`. */
  predicate ReadsAsFrame(p: Params, w: Finish, dma: nat) {
    && SwapIf(p.readSwap, w.addr.raw) == dma % TWO32
    && SwapIf(p.readSwap, w.len.raw) == FRAME_SIZE && SwapIf(p.readSwap, w.sent.raw) == FRAME_SIZE
  }

  predicate ProgressRead(w: Finish) {
    && Reads(w.addr.at, ACTIVE_ADDR_REG, 0, w.addr.raw) && Reads(w.len.at, ACTIVE_LEN_REG, 0, w.len.raw)
    && Reads(w.sent.at, BYTES_SENT_REG, 0, w.sent.raw)
  }

  ghost predicate GuardedAt(m: Mem, dma: nat) { Prefilled(m, dma + FRAME_SIZE, dma + BUFFER_SIZE) }

  /** What a wait for a frame in the buffer at `dma` comes to, with memory `m` at its end. */
  ghost function FinishRet(p: Params, w: Finish, m: Mem, dma: nat): Ret {
    if w.poll != Ok then w.poll
    else if ReadsAsFrame(p, w, dma) && GuardedAt(m, dma) then Ok
    else EIO
  }

  class RingDevice {
    // the FPGA and the kernel's DMA allocator
    var f: Fpga
    var heap: Heap
    // struct colorbar_device
    const bufs: array<Buf>
    var bufsAllocated: bool
    var ringConfigured: bool
    var started: bool
    var frameReady: bool
    var bufferSize: nat
    var frameCounter: u32
    var lastBufferIndex: nat
    var activeBufferIndex: nat
    var nextBufferIndex: nat
    // history
    ghost var log: seq<Event> // its register writes, polls and Bus Master changes so far
    ghost var reported: int          // next index the FPGA reported in the pre-start check
    ghost var misordered: bool       // START was written for another index
    ghost var base: Mem              // memory as START found it
    ghost var target: u32            // where the FPGA was sent by START
    ghost var handed: seq<FrameInfo> // frames handed over since the ring was configured
    ghost var counted: u32           // `frameCounter` when it was
    ghost var shown: Mem             // memory as the last frame was handed over
    ghost var shownAt: nat           // and the bus address of that frame

    /** What the log establishes. */
    ghost function Mon(): Monitor
      reads this`log
    {
      Watch(log, VERSION, BUFFERS)
    }

    /** The register writes so far, in order and with their values. */
    ghost function Written(): seq<Event>
      reads this`log
    {
      WritesOf(log)
    }

    ghost method Note(e: Event)
      modifies this`log
      ensures log == old(log) + [e] && Mon() == Observe(old(Mon()), e, VERSION, BUFFERS)
      ensures Written() == old(Written()) + if WritesRegister(e) then [e] else []
    {
      hide Observe;
      log := log + [e];
      assert log[..|log| - 1] == old(log);
    }

    /** What the log of any run says of its ARM and START writes. */
    lemma EveryStartIsChecked(k: nat)
      requires Valid() && k < |log|
      ensures log[k].WroteArm? ==> StopAcknowledged(log[..k], VERSION)
      ensures log[k].WroteStart? ==>
                && SawReady(log[..k], VERSION) && SawMaster(log[..k], VERSION) && MasterIsOn(log[..k])
                && (ReadBack(log[..k]) ==> SawEchoes(log[..k], BUFFERS))
    {
      LogIsDisciplined(log, k, VERSION, BUFFERS);
    }

    ghost predicate LogOk()
      reads this`f, this`log, this`misordered
    {
      !Mon().violated && Mon().master == f.busMaster && !misordered
    }

    /** All four buffers, or none. */
    ghost predicate BuffersOk()
      reads this`heap, this`bufsAllocated, this`bufferSize, bufs
    {
      && bufs.Length == BUFFERS && Ledger(bufs[..], heap, BUFFER_SIZE)
      && if bufsAllocated then bufferSize == BUFFER_SIZE && forall i | 0 <= i < BUFFERS :: BufOk(bufs[i])
         else bufferSize == 0 && heap == map[] && forall i | 0 <= i < BUFFERS :: bufs[i].cpu == 0
    }

    /** The next buffer and the frame counter follow the number of frames handed over. */
    ghost predicate Counted()
      reads this`handed, this`counted, this`nextBufferIndex, this`frameCounter
    {
      nextBufferIndex == Slot(|handed|) && frameCounter == Counter(counted, |handed|)
    }

    /** A transfer under way goes to the next buffer, and touches nothing but its frame. */
    ghost predicate TransferOk()
      reads this`started, this`ringConfigured, this`frameReady, this`activeBufferIndex, this`nextBufferIndex
      reads this`f, this`base, this`target, bufs
    {
      if started then
        && ringConfigured && !frameReady && activeBufferIndex == nextBufferIndex
        && Flying(f, base, target) && GuardsIn(base, activeBufferIndex)
      else ringConfigured ==> !f.running
    }

    /** A frame that waits to be read is the one handed over last, and memory still shows it. */
    ghost predicate WaitingOk()
      reads this`started, this`ringConfigured, this`frameReady, this`activeBufferIndex, this`nextBufferIndex
      reads this`lastBufferIndex, this`f, this`shown, this`shownAt, this`handed, this`frameCounter, bufs
    {
      frameReady ==>
        && ringConfigured && !started && lastBufferIndex == activeBufferIndex < bufs.Length == BUFFERS
        && nextBufferIndex == Slot(lastBufferIndex + 1)
        && f.mem == shown && shownAt == bufs[lastBufferIndex].dma
        && handed != [] && handed[|handed| - 1] == FrameInfo(lastBufferIndex, frameCounter, FRAME_SIZE)
    }

    /** What holds between calls. */
    ghost predicate Valid()
      reads this, bufs
    {
      && LogOk() && BuffersOk() && InOrder(handed, counted)
      && f.busMaster == ringConfigured
      && (ringConfigured ==> bufsAllocated && Counted())
      && TransferOk() && WaitingOk()
    }

    ghost predicate GuardsIn(m: Mem, index: nat)
      reads bufs
    {
      index < bufs.Length && GuardedAt(m, bufs[index].dma)
    }

    // -------------------------------------------------------------- the kernel's allocator

    /** `dma_alloc_coherent`: NULL, or a block that overlaps no outstanding one. */
    method DmaAlloc(size: nat) returns (b: Buf)
      modifies this`heap
      ensures b.cpu == 0 ==> heap == old(heap)
      ensures b.cpu != 0 ==> b.cpu !in old(heap) && heap == old(heap)[b.cpu := Block(b.dma, size)]
      ensures b.cpu != 0 ==> forall k | k in old(heap) :: Apart(old(heap)[k], Block(b.dma, size))
    {
      var cpu: nat := *;
      var dma: nat := *;
      if cpu == 0 || cpu in heap || exists k | k in heap :: !Apart(heap[k], Block(dma, size)) {
        return Buf(0, dma);
      }
      heap := heap[cpu := Block(dma, size)];
      b := Buf(cpu, dma);
    }

    /** `dma_free_coherent`: the block must be outstanding and of that size. */
    method DmaFree(size: nat, cpu: nat)
      requires cpu in heap && heap[cpu].size == size
      modifies this`heap
      ensures heap == old(heap) - {cpu}
    {
      heap := heap - {cpu};
    }

    /** `colorbar_free_buffers_locked`. */
    method FreeBuffers()
      requires bufs.Length == BUFFERS && Ledger(bufs[..], heap, BUFFER_SIZE) && bufferSize in {0, BUFFER_SIZE}
      modifies bufs, this`heap, this`bufsAllocated, this`ringConfigured, this`started, this`frameReady
      modifies this`bufferSize, this`frameCounter, this`lastBufferIndex, this`activeBufferIndex, this`nextBufferIndex
      ensures BuffersOk() && !bufsAllocated && !ringConfigured && !started && !frameReady && frameCounter == 0
    {
      hide Watch, WritesOf, Apart, Separate, NoLeak;
      var size := if bufferSize == 0 then BUFFER_SIZE else bufferSize;
      var i := 0;
      while i < BUFFERS
        invariant i <= BUFFERS && Ledger(bufs[..], heap, BUFFER_SIZE)
        invariant forall k | 0 <= k < i :: bufs[k].cpu == 0
      {
        if bufs[i].cpu != 0 {
          ghost var bs := bufs[..];
          LedgerFree(bs, heap, BUFFER_SIZE, i);
          DmaFree(size, bufs[i].cpu);
          bufs[i] := Buf(0, 0);
          assert bufs[..] == bs[i := Buf(0, 0)];
        }
        i := i + 1;
      }
      LedgerOfNone(bufs[..], heap, BUFFER_SIZE);
      bufsAllocated, ringConfigured, bufferSize, started, frameReady := false, false, 0, false, false;
      frameCounter, lastBufferIndex, activeBufferIndex, nextBufferIndex := 0, 0, 0, 0;
    }

    /** One round of the allocation loop. */
    method AllocOne(i: nat) returns (ok: bool)
      requires bufs.Length == BUFFERS && i < BUFFERS && bufs[i].cpu == 0
      requires Ledger(bufs[..], heap, BUFFER_SIZE)
      modifies bufs, this`f, this`heap
      ensures Ledger(bufs[..], heap, BUFFER_SIZE) && f.busMaster == old(f.busMaster) && ok == BufOk(bufs[i])
      ensures old(LogOk()) ==> LogOk()
      ensures ok ==> Filled(bufs[i]) && forall x | !InBuffer(bufs[i], x) :: f.mem(x) == old(f).mem(x)
      ensures forall b: Buf | old(Filled(b)) :: Filled(b)
      ensures forall k | 0 <= k < BUFFERS && k != i :: bufs[k] == old(bufs[k])
    {
      hide Watch, WritesOf, Ledger, Apart;
      ghost var (bs, before) := (bufs[..], heap);
      var b := DmaAlloc(BUFFER_SIZE);
      bufs[i] := b;
      assert bufs[..] == bs[i := b];
      if b.cpu == 0 {
        SameLedger(bs, before, i, b);
        return false;
      }
      LedgerAlloc(bs, before, BUFFER_SIZE, i, b);
      if b.dma >= TWO32 || b.dma % 64 != 0 || b.dma + FRAME_SIZE > TWO32 {
        return false;
      }
      forall a: Buf {
        PrefillKeeps(f.mem, b.dma, a.dma, a.dma + BUFFER_SIZE);
      }
      f := f.(mem := Fill(f.mem, b.dma, BUFFER_SIZE, PREFILL));
      ok := true;
    }

    ghost predicate Filled(b: Buf)
      reads this`f
    {
      Prefilled(f.mem, b.dma, b.dma + BUFFER_SIZE)
    }

    /** COLORBAR_IOC_ALLOC_BUFS: four buffers or none; what exists already is kept. It fails exactly at
        the first buffer that `dma_alloc_coherent` does not give, or not where a frame can go. */
    method Alloc(p: Params) returns (ret: Ret, ghost offers: seq<Buf>)
      requires Valid()
      modifies bufs, this`f, this`heap, this`bufsAllocated, this`ringConfigured, this`started, this`frameReady
      modifies this`bufferSize, this`frameCounter, this`lastBufferIndex, this`activeBufferIndex, this`nextBufferIndex
      ensures Valid() && f.busMaster == old(f.busMaster)
      ensures ret == if p.dmaLen != FRAME_SIZE then EINVAL
                     else if old(bufsAllocated) || AllUsable(offers) then Ok
                     else ENOMEM
      ensures p.dmaLen == FRAME_SIZE && !old(bufsAllocated) ==> OffersEnd(offers)
      ensures ret == Ok ==> bufsAllocated
      ensures ret == Ok && !old(bufsAllocated) ==>
                bufs[..] == offers && forall k | 0 <= k < BUFFERS :: Filled(bufs[k])
      ensures started == old(started) && frameReady == old(frameReady)
      ensures old(bufsAllocated) ==>
                && bufsAllocated && Untouched() && heap == old(heap) && bufs[..] == old(bufs[..])
      ensures ringConfigured == old(ringConfigured) && (ringConfigured ==> nextBufferIndex == old(nextBufferIndex))
      ensures ret == ENOMEM ==> heap == map[]
      ensures !old(bufsAllocated) && ret != Ok ==> !bufsAllocated
    {
      hide Watch, WritesOf, Ledger, Flying, BufOk, Filled, InBuffer, LogOk, InOrder, Counted, Slot, Counter, GuardsIn;
      hide Mon;
      offers := [];
      if p.dmaLen != FRAME_SIZE {
        return EINVAL, offers;
      }
      if bufsAllocated {
        if bufferSize == BUFFER_SIZE {
          return Ok, offers;
        }
        assert false;
      }
      bufferSize := BUFFER_SIZE;
      var i := 0;
      while i < BUFFERS
        invariant i <= BUFFERS && Ledger(bufs[..], heap, BUFFER_SIZE)
        invariant |offers| == i && forall k | 0 <= k < i :: BufOk(bufs[k]) && offers[k] == bufs[k] && Filled(bufs[k])
        invariant forall k | i <= k < BUFFERS :: bufs[k].cpu == 0
        invariant f.busMaster == old(f.busMaster) && LogOk()
        invariant !bufsAllocated && !ringConfigured && !started && !frameReady && bufferSize == BUFFER_SIZE
      {
        var ok := AllocOne(i);
        offers := offers + [bufs[i]];
        if !ok {
          assert !BufOk(offers[i]);
          FreeBuffers();
          return ENOMEM, offers;
        }
        i := i + 1;
      }
      bufsAllocated := true;
      ret := Ok;
    }

    // -------------------------------------------------------------- register accesses

    /** Any stretch of time. */
    method Pass()
      modifies this`f
      ensures Later(old(f), f, base, target)
    {
      var d: Drift := *;
      FlyingDriftIf(f, d, base, target);
      f := Drifted(f, d);
    }

    /** `iowrite32`; every write is logged. What the FPGA makes of the value is its own choice. */
    method IoWrite(reg: nat, v: u32)
      requires reg == START_REG ==> !f.running
      modifies this`f, this`log, this`reported, this`misordered, this`base, this`target
      ensures f.busMaster == old(f.busMaster)
      ensures Mon() == Observe(old(Mon()), WriteEvent(reg, v), VERSION, BUFFERS)
      ensures reg != START_REG ==>
                && (!old(f.running) ==> !f.running && f.mem == old(f.mem))
                && reported == -1 && misordered == old(misordered)
      ensures reg == START_REG ==>
                && Flying(f, base, target) && base == old(f.mem) && reported == old(reported)
                && (misordered <==> old(misordered) || old(reported) != nextBufferIndex)
                && target in {0, old(f.slots[f.next])}
      ensures Written() == old(Written()) + [WriteEvent(reg, v)]
    {
      hide Watch, WritesOf, Observe;
      Pass();
      Note(WriteEvent(reg, v));
      var e: Effect := *;
      if reg == START_REG {
        base, target := f.mem, f.slots[f.next];
        misordered := misordered || reported != nextBufferIndex;
        FlyingStart(f, e);
      } else {
        reported := -1;
      }
      f := AfterWrite(f, reg, e);
      Pass();
    }

    /** `ioread32`, as captured when the FPGA was `at`; all ones when no completion came. */
    method IoRead(reg: nat) returns (v: u32, ghost at: Fpga, ghost word: u32)
      modifies this`f
      ensures Later(old(f), at, base, target) && Later(at, f, base, target)
      ensures Reads(at, reg, word, v)
    {
      Pass();
      at := f;
      var w: u32 := *;
      if reg == STATUS_REG && !Shows(f, w) {
        ZeroIsShown(f);
        w := 0;
      }
      var answered: bool := *;
      v := if answered then RegValue(f, reg, w) else 0xFFFF_FFFF;
      word := w;
      Pass();
    }

    /** `colorbar_read_status_locked`: a status word the FPGA may show, or all ones. */
    method ReadStatus() returns (status: u32, ghost at: Fpga, ghost word: u32)
      modifies this`f, this`log
      ensures Later(old(f), at, base, target) && Later(at, f, base, target)
      ensures Reads(at, STATUS_REG, word, status) && (Version(status) == VERSION ==> Shows(at, status))
      ensures log == old(log) + [SawStatus(status)]
      ensures Mon() == Observe(old(Mon()), SawStatus(status), VERSION, BUFFERS)
      ensures Written() == old(Written())
    {
      hide Watch, WritesOf, Later, Flying, Swab32, Bit;
      var raw, at0, w := IoRead(STATUS_REG);
      at, word := at0, w;
      status := DecodeStatus(raw, VERSION);
      Note(SawStatus(status));
      DecodedExactly(w, raw, VERSION);
    }

    /** `colorbar_wait_status_locked`; how many polls fit into the timeout is arbitrary. */
    method WaitStatus(q: Poll) returns (ret: Ret, status: u32, ghost at: Fpga, ghost seen: seq<u32>)
      requires q.version == VERSION
      modifies this`f, this`log
      ensures Later(old(f), at, base, target) && Later(at, f, base, target)
      ensures PollEnds(q, seen, ret) && status == seen[|seen| - 1] && log == old(log) + Saws(seen)
      ensures Version(status) == VERSION ==> Shows(at, status)
      ensures OnlySaw(old(Mon()), Mon())
      ensures ret == Ok && Stopped(status, VERSION) && Mon().stopSent ==> Mon().acked
      ensures ret == Ok && MasterVisible(status, VERSION) && Mon().master ==> Mon().visible
      ensures Written() == old(Written())
    {
      hide Watch, WritesOf, Shows, Swab32, Bit, Flying, PollEnds, Unsettled, Saws, AllSet, AllClear, ErrorFree;
      NoneSeen(q, log);
      var polls: nat := *;
      seen := [];
      while true
        invariant Later(old(f), f, base, target) && OnlySaw(old(Mon()), Mon())
        invariant Written() == old(Written()) && log == old(log) + Saws(seen) && Unsettled(q, seen)
        decreases polls
      {
        ghost var word;
        status, at, word := ReadStatus();
        OneMoreSeen(q, old(log), seen, status);
        seen := seen + [status];
        if q.failOnError && Version(status) == VERSION && !ErrorFree(status) {
          return EIO, status, at, seen;
        }
        if Version(status) == VERSION && AllSet(status, q.requiredSet) && AllClear(status, q.requiredClear) {
          return Ok, status, at, seen;
        }
        if polls == 0 {
          return ETIMEDOUT, status, at, seen;
        }
        polls := polls - 1;
      }
    }

    lemma FlyingDriftIf(g: Fpga, d: Drift, m: Mem, a: u32)
      ensures Later(g, Drifted(g, d), m, a)
    {
      if Flying(g, m, a) {
        FlyingDrift(g, d, m, a);
      }
      if !g.running {
        RestDrift(g, d);
      }
    }

    // -------------------------------------------------------------- STOP and Bus Master

    /** `pci_set_master` and `pci_clear_master`. */
    method SetMaster(on: bool)
      requires LogOk()
      modifies this`f, this`log
      ensures LogOk() && f == old(f).(busMaster := on)
      ensures Mon() == Observe(old(Mon()), if on then MasterOn else MasterOff, VERSION, BUFFERS)
      ensures Written() == old(Written())
      ensures NoNewStart(old(Mon()), Mon()) && SameCallAs(old(Mon()), Mon())
    {
      ghost var e := if on then MasterOn else MasterOff;
      Note(e);
      f := f.(busMaster := on);
    }

    /** `colorbar_stop_wait_locked`, with `colorbar_hw_safe_stop`. */
    method StopWait() returns (ret: Ret, ghost seen: seq<u32>)
      requires LogOk()
      modifies this`f, this`log, this`reported, this`misordered, this`base, this`target, this`started
      ensures LogOk() && !started && f.busMaster == old(f.busMaster)
      ensures NoNewStart(old(Mon()), Mon()) && SameCallAs(old(Mon()), Mon())
      ensures PollEnds(StopPoll(VERSION), seen, ret)
      ensures ret == Ok ==> !f.running && Mon().acked && Mon().echoes == 0
      ensures Written() == old(Written()) + [WroteStop(0)]
    {
      hide Watch, WritesOf, Flying, Swab32, PollEnds, Saws;
      IoWrite(STOP_REG, 0);
      started := false;
      var r, status, at, seen1 := WaitStatus(StopPoll(VERSION));
      ret, seen := r, seen1;
      PollMet(StopPoll(VERSION), seen, ret);
      assert STOP_ACK in {STOP_ACK, IDLE};
    }

    /** `colorbar_stop_locked`. */
    method StopLocked()
      requires LogOk()
      modifies this`f, this`log, this`reported, this`misordered, this`base, this`target, this`started
      modifies this`ringConfigured, this`frameReady, this`nextBufferIndex, this`activeBufferIndex
      ensures LogOk() && !f.busMaster && NoNewStart(old(Mon()), Mon())
      ensures !started && !ringConfigured && !frameReady && nextBufferIndex == 0 && activeBufferIndex == 0
      ensures Written() == old(Written()) + [WroteStop(0)]
    {
      hide Watch, WritesOf, Observe, Flying, Bit;
      SetMaster(true);
      var ret, seen := StopWait();
      SetMaster(false);
      ringConfigured, started, frameReady := false, false, false;
      nextBufferIndex, activeBufferIndex := 0, 0;
    }

    // -------------------------------------------------------------- START

    /** `memset` of one whole buffer. */
    method Prefill(i: nat)
      requires bufs.Length == BUFFERS && i < BUFFERS && bufferSize == BUFFER_SIZE
      modifies this`f
      ensures f == old(f).(mem := Fill(old(f.mem), bufs[i].dma, BUFFER_SIZE, PREFILL))
      ensures GuardsIn(f.mem, i)
      ensures forall k | 0 <= k < BUFFERS && old(GuardsIn(f.mem, k)) :: GuardsIn(f.mem, k)
    {
      forall k | 0 <= k < BUFFERS
        ensures GuardsIn(f.mem, k) || k == i ==> GuardsIn(Fill(f.mem, bufs[i].dma, BUFFER_SIZE, PREFILL), k)
      {
        PrefillKeeps(f.mem, bufs[i].dma, bufs[k].dma + FRAME_SIZE, bufs[k].dma + BUFFER_SIZE);
      }
      f := f.(mem := Fill(f.mem, bufs[i].dma, bufferSize, PREFILL));
    }

    method PrefillAll()
      requires bufs.Length == BUFFERS && bufferSize == BUFFER_SIZE
      modifies this`f
      ensures f.running == old(f.running) && f.busMaster == old(f.busMaster) && (old(LogOk()) ==> LogOk())
      ensures forall k | 0 <= k < BUFFERS :: GuardsIn(f.mem, k)
    {
      hide GuardedAt, Mon;
      var i := 0;
      while i < BUFFERS
        invariant i <= BUFFERS && f == old(f).(mem := f.mem)
        invariant forall k | 0 <= k < i :: GuardsIn(f.mem, k)
      {
        Prefill(i);
        i := i + 1;
      }
    }

    /** The writes of the first `n` bus addresses, all to one register, in ring order. */
    ghost function AddressWrites(p: Params, n: nat): seq<Event>
      requires n <= bufs.Length
      reads bufs
    {
      if n == 0 then []
      else AddressWrites(p, n - 1) + [WroteOther(ADDR_REG, SwapIf(p.addrSwap, bufs[n - 1].dma % TWO32))]
    }

    /** What configuring the ring writes: STOP, then the magic, the four addresses and the length. */
    ghost function SetupWrites(p: Params): seq<Event>
      requires bufs.Length == BUFFERS
      reads bufs
    {
      [WroteStop(0), WroteArm(SwapIf(p.cmdSwap, ARM_MAGIC))] + AddressWrites(p, BUFFERS)
      + [WroteOther(LEN_REG, SwapIf(p.cmdSwap, FRAME_SIZE))]
    }

    /** The four bus addresses, written to one register in ring order. */
    method WriteAddresses(p: Params)
      requires LogOk() && !f.running && !f.busMaster && bufs.Length == BUFFERS && Mon().echoes == 0
      modifies this`f, this`log, this`reported, this`misordered, this`base, this`target
      ensures LogOk() && !f.running && !f.busMaster && f.mem == old(f.mem) && NoNewStart(old(Mon()), Mon())
      ensures SameCallAs(old(Mon()), Mon()) && Mon().echoes == 0
      ensures Written() == old(Written()) + AddressWrites(p, BUFFERS)
    {
      hide Watch, WritesOf, Flying, Swab32, SwapIf;
      var i := 0;
      while i < BUFFERS
        invariant i <= BUFFERS && LogOk() && !f.running && !f.busMaster && f.mem == old(f.mem)
        invariant NoNewStart(old(Mon()), Mon()) && SameCallAs(old(Mon()), Mon()) && Mon().echoes == 0
        invariant Written() == old(Written()) + AddressWrites(p, i)
      {
        var low := bufs[i].dma % TWO32;
        IoWrite(ADDR_REG, SwapIf(p.addrSwap, low));
        i := i + 1;
      }
    }

    /** The magic, the addresses and the length. */
    method Program(p: Params)
      requires LogOk() && !f.running && !f.busMaster && bufs.Length == BUFFERS && Mon().acked
      modifies this`f, this`log, this`reported, this`misordered, this`base, this`target
      ensures LogOk() && !f.running && !f.busMaster && f.mem == old(f.mem) && NoNewStart(old(Mon()), Mon())
      ensures SameCallAs(old(Mon()), Mon()) && Mon().echoes == 0
      ensures Written() == old(Written()) + SetupWrites(p)[1..]
    {
      hide Watch, WritesOf, Flying, Swab32, SwapIf, Bit;
      IoWrite(ARM_REG, SwapIf(p.cmdSwap, ARM_MAGIC));
      WriteAddresses(p);
      IoWrite(LEN_REG, SwapIf(p.cmdSwap, FRAME_SIZE));
    }

    /** STOP with Bus Master off, before anything is programmed. */
    method StopFirst() returns (ret: Ret, ghost seen: seq<u32>)
      requires LogOk()
      modifies this`f, this`log, this`reported, this`misordered, this`base, this`target, this`started
      ensures LogOk() && !f.busMaster && !started && NoNewStart(old(Mon()), Mon()) && SameCallAs(old(Mon()), Mon())
      ensures PollEnds(StopPoll(VERSION), seen, ret)
      ensures ret == Ok ==> !f.running && Mon().acked && Mon().echoes == 0
      ensures Written() == old(Written()) + [WroteStop(0)]
    {
      hide Watch, WritesOf, Observe, Flying, Swab32, PollEnds;
      SetMaster(false);
      ret, seen := StopWait();
      if ret != Ok {
        SetMaster(false);
      }
    }

    lemma StopIsFirst(p: Params)
      requires bufs.Length == BUFFERS
      ensures SetupWrites(p) == [WroteStop(0)] + SetupWrites(p)[1..]
    {
    }

    /** The part of `colorbar_start_locked` that configures the ring. */
    method ConfigureRing(p: Params) returns (ret: Ret, ghost seen: seq<u32>)
      requires LogOk() && bufs.Length == BUFFERS && bufferSize == BUFFER_SIZE
      modifies this`f, this`log, this`reported, this`misordered, this`base, this`target, this`started
      modifies this`nextBufferIndex
      ensures LogOk() && !f.busMaster && !started && NoNewStart(old(Mon()), Mon())
      ensures SameCallAs(old(Mon()), Mon()) && PollEnds(StopPoll(VERSION), seen, ret)
      ensures ret == Ok ==>
                && !f.running && nextBufferIndex == 0 && Mon().echoes == 0
                && forall k | 0 <= k < BUFFERS :: GuardsIn(f.mem, k)
      ensures Written() == old(Written()) + if ret == Ok then SetupWrites(p) else [WroteStop(0)]
    {
      hide Watch, WritesOf, Observe, Flying, Swab32, GuardsIn, SwapIf, Bit, SetupWrites, PollEnds, LogOk, Mon, Written;
      StopIsFirst(p);
      ret, seen := StopFirst();
      if ret == Ok {
        PrefillAll();
        nextBufferIndex := 0;
        Program(p);
      }
    }

    /** The low words of the four bus addresses. */
    ghost function BusAddrs(): seq<u32>
      reads bufs
    {
      seq(bufs.Length, (i: nat) requires i < bufs.Length reads bufs => bufs[i].dma % TWO32)
    }

    /** A buffer's bus address in the byte order that the echoes are read in. */
    function Aim(p: Params, k: nat): u32
      requires k < bufs.Length
      reads bufs
    {
      SwapIf(p.readSwap, bufs[k].dma % TWO32)
    }

    /** The slots of `g` up to `n` hold the buffers' addresses. */
    ghost predicate SlotsSet(p: Params, n: nat, g: Fpga)
      requires n <= BUFFERS == bufs.Length
      reads bufs
    {
      forall k | 0 <= k < n :: SlotSet(g, k, Aim(p, k))
    }

    /** A matching echo was a slot of the FPGA, and still is one unless the FPGA was cleared. */
    lemma EchoSettles(p: Params, k: nat, e: Capture)
      requires k < BUFFERS == bufs.Length && BufOk(bufs[k])
      requires EchoRead(k, e) && EchoMatches(p, BusAddrs(), k, e) && Later(e.at, f, base, target)
      ensures SlotSet(f, k, Aim(p, k))
    {
      SwabAllOnes();
      SwabInvolution(e.raw);
      hide Swab32;
      assert e.raw == e.at.slots[k];
    }

    lemma SlotsStay(p: Params, n: nat, g: Fpga)
      requires n <= BUFFERS == bufs.Length && Later(g, f, base, target)
      requires SlotsSet(p, n, g)
      ensures SlotsSet(p, n, f)
    {
      hide Aim, Flying;
    }

    /** The read of one ADDR_ECHO register, byte order undone. */
    method ReadEcho(p: Params, k: nat) returns (got: u32, ghost e: Capture)
      requires k < BUFFERS
      modifies this`f, this`log
      ensures Later(old(f), e.at, base, target) && Later(e.at, f, base, target) && Later(old(f), f, base, target)
      ensures EchoRead(k, e) && got == SwapIf(p.readSwap, e.raw)
      ensures log == old(log) + [SawEcho(k, got)] && Mon() == Observe(old(Mon()), SawEcho(k, got), VERSION, BUFFERS)
      ensures f.busMaster == old(f.busMaster) && Written() == old(Written())
    {
      hide Watch, WritesOf, Flying, Swab32, SwapIf, Observe;
      ghost var f0 := f;
      var raw, at, word := IoRead(ADDR_ECHO0_REG + 4 * k);
      LaterTrans(f0, at, f, base, target);
      hide Later;
      e := Capture(at, raw);
      got := SwapIf(p.readSwap, raw);
      Note(SawEcho(k, got));
    }

    /** All four, up to the first that does not match. */
    method ReadEchoes(p: Params) returns (ok: bool, ghost echoes: seq<Capture>)
      requires LogOk() && bufs.Length == BUFFERS && Mon().addrs == BusAddrs() && Mon().echoes == 0
      requires forall k | 0 <= k < BUFFERS :: BufOk(bufs[k])
      modifies this`f, this`log
      ensures LogOk() && Later(old(f), f, base, target) && NoNewStart(old(Mon()), Mon())
      ensures SameCallAs(old(Mon()), Mon()) && EchoesSeen(p, BusAddrs(), echoes)
      ensures ok == AllMatch(p, BusAddrs(), echoes)
      ensures ok ==> Mon().echoes == BUFFERS && SlotsSet(p, BUFFERS, f)
      ensures Written() == old(Written())
    {
      hide Watch, WritesOf, Flying, Swab32, SwapIf, SlotSet, Cleared, BufOk, Aim;
      echoes := [];
      var i := 0;
      while i < BUFFERS
        invariant i <= BUFFERS && LogOk() && Later(old(f), f, base, target) && NoNewStart(old(Mon()), Mon())
        invariant SameCallAs(old(Mon()), Mon()) && Mon().echoes == i && Written() == old(Written())
        invariant |echoes| == i
        invariant forall k | 0 <= k < i :: EchoRead(k, echoes[k]) && EchoMatches(p, BusAddrs(), k, echoes[k])
        invariant SlotsSet(p, i, f)
      {
        ghost var before := f;
        var got, e := ReadEcho(p, i);
        LaterTrans(old(f), before, f, base, target);
        echoes := echoes + [e];
        assert BusAddrs()[i] == bufs[i].dma % TWO32;
        if got != bufs[i].dma % TWO32 {
          assert !EchoMatches(p, BusAddrs(), i, echoes[i]);
          return false, echoes;
        }
        EchoSettles(p, i, e);
        SlotsStay(p, i, before);
        i := i + 1;
      }
      ok := true;
    }

    /** `colorbar_verify_readback_locked` */
    method VerifyReadback(p: Params) returns (ret: Ret, ghost echoes: seq<Capture>, ghost ready: Capture)
      requires LogOk() && bufs.Length == BUFFERS && !f.running && Mon().echoes == 0
      requires Mon().verify == p.verifyReadback && Mon().addrs == BusAddrs()
      requires forall k | 0 <= k < BUFFERS :: BufOk(bufs[k])
      modifies this`f, this`log, this`reported
      ensures LogOk() && Later(old(f), f, base, target) && NoNewStart(old(Mon()), Mon())
      ensures SameCallAs(old(Mon()), Mon())
      ensures (p.verifyReadback ==> EchoesSeen(p, BusAddrs(), echoes)) && StatusCaptured(ready)
      ensures ret == VerifyRet(p, BusAddrs(), echoes, ready, nextBufferIndex)
      ensures ret == Ok ==>
                && Mon().ready && (Mon().verify ==> Mon().echoes == BUFFERS) && reported == nextBufferIndex
                && (Cleared(f) || f.next == nextBufferIndex) && (p.verifyReadback ==> SlotsSet(p, BUFFERS, f))
      ensures Written() == old(Written())
    {
      hide Watch, WritesOf, Flying, Swab32, Bit, EchoesSeen, AllMatch, BufOk, Aim, SlotsSet, StatusCaptured;
      echoes, ready := [], Capture(f, 0xFFFF_FFFF);
      NoAnswer(f);
      if p.verifyReadback {
        var ok;
        ok, echoes := ReadEchoes(p);
        if !ok {
          return EIO, echoes, ready;
        }
      }
      ghost var before := f;
      var status, at, word := ReadStatus();
      ready := Capture(at, status);
      LaterTrans(before, at, f, base, target);
      LaterTrans(old(f), before, f, base, target);
      if p.verifyReadback {
        SlotsStay(p, BUFFERS, before);
      }
      assert StatusCaptured(ready) by {
        Captured(at, status, word);
      }
      if !ReadyToStart(status, VERSION) {
        return EIO, echoes, ready;
      }
      reported := NextBuffer(status);
      ret := if NextBuffer(status) == nextBufferIndex then Ok else EIO;
    }

    lemma Captured(g: Fpga, status: u32, w: u32)
      requires Reads(g, STATUS_REG, w, status)
      ensures StatusCaptured(Capture(g, status))
    {
    }

    lemma NoAnswer(g: Fpga)
      ensures StatusCaptured(Capture(g, 0xFFFF_FFFF))
    {
      ZeroIsShown(g);
      assert Reads(g, STATUS_REG, 0, 0xFFFF_FFFF);
    }

    /** Bus Master on, and wait until the FPGA reports that it sees it. */
    method MasterOnAndVisible() returns (ret: Ret, ghost seen: seq<u32>)
      requires LogOk() && Mon().ready && !f.running
      modifies this`f, this`log
      ensures LogOk() && !f.running && f.mem == old(f.mem) && f.busMaster && NoNewStart(old(Mon()), Mon())
      ensures Cleared(f) || (f.next == old(f.next) && f.slots == old(f.slots))
      ensures Mon().ready && SameCallAs(old(Mon()), Mon()) && Mon().echoes == old(Mon()).echoes
      ensures PollEnds(MasterPoll(VERSION), seen, ret) && (ret == Ok ==> Mon().visible)
      ensures Written() == old(Written())
    {
      hide Watch, WritesOf, Flying, Swab32, Shows, PollEnds, Saws;
      SetMaster(true);
      var r, status, at, seen1 := WaitStatus(MasterPoll(VERSION));
      ret, seen := r, seen1;
      PollMet(MasterPoll(VERSION), seen, ret);
      if ret == Ok {
        assert MasterVisible(status, VERSION) by {
          assert DMA_ENABLE in {DMA_ENABLE};
        }
      }
    }

    /** A START that fails after the checks began: STOP, Bus Master off, ring forgotten. */
    method Abandon()
      requires LogOk()
      modifies this`f, this`log, this`reported, this`misordered, this`base, this`target, this`started
      modifies this`ringConfigured
      ensures LogOk() && !f.busMaster && !started && !ringConfigured && NoNewStart(old(Mon()), Mon())
      ensures Written() == old(Written()) + [WroteStop(0)]
    {
      hide PollEnds;
      var r, seen := StopWait();
      SetMaster(false);
      ringConfigured := false;
    }

    /** A new call: what earlier calls established no longer counts. */
    ghost method BeginCall(verify: bool)
      requires LogOk()
      modifies this`log
      ensures LogOk() && NoNewStart(old(Mon()), Mon())
      ensures Mon().verify == verify && Mon().addrs == BusAddrs() && Mon().echoes == 0
      ensures Written() == old(Written())
    {
      Note(CallBegins(verify, BusAddrs()));
    }

    /** The START register, written only with every check of this call behind it. */
    method WriteStart(p: Params)
      requires LogOk() && !f.running && f.busMaster && reported == nextBufferIndex
      requires var m := Mon(); m.ready && m.visible && (m.verify ==> m.echoes == BUFFERS)
      modifies this`f, this`log, this`reported, this`misordered, this`base, this`target
      ensures LogOk() && f.busMaster && Mon().starts == old(Mon()).starts + 1 && SameCallAs(old(Mon()), Mon())
      ensures Flying(f, base, target) && base == old(f.mem) && reported == old(reported)
      ensures target in {0, old(f.slots[f.next])}
      ensures Written() == old(Written()) + [WroteStart(SwapIf(p.cmdSwap, 1))]
    {
      hide Watch, WritesOf, Flying, Swab32;
      IoWrite(START_REG, SwapIf(p.cmdSwap, 1));
    }

    /** Configuration, or clearing the next buffer of a configured ring. */
    method Prepare(p: Params) returns (ret: Ret, ghost seen: seq<u32>)
      requires Valid() && bufsAllocated && !started && !frameReady
      modifies this`f, this`log, this`reported, this`misordered, this`base, this`target, this`started
      modifies this`nextBufferIndex
      ensures LogOk() && !started && NoNewStart(old(Mon()), Mon())
      ensures Mon().verify == p.verifyReadback && Mon().addrs == BusAddrs()
      ensures if ringConfigured then ret == Ok else PollEnds(StopPoll(VERSION), seen, ret)
      ensures ret == Ok ==>
                !f.running && nextBufferIndex < BUFFERS && GuardsIn(f.mem, nextBufferIndex) && Mon().echoes == 0
      ensures ret == Ok && ringConfigured ==>
                && nextBufferIndex == old(nextBufferIndex)
                && f.mem == Fill(old(f.mem), bufs[nextBufferIndex].dma, BUFFER_SIZE, PREFILL)
      ensures ret == Ok && !ringConfigured ==> nextBufferIndex == 0
      ensures ret != Ok ==> !ringConfigured && !f.busMaster
      ensures Written() == old(Written())
                           + if ret != Ok then [WroteStop(0)] else if ringConfigured then [] else SetupWrites(p)
    {
      hide Watch, WritesOf, Flying, Swab32, Observe, Bit, InOrder, Ledger, BufOk, PollEnds, BusAddrs;
      BeginCall(p.verifyReadback);
      seen := [];
      if !ringConfigured {
        ret, seen := ConfigureRing(p);
      } else {
        Prefill(nextBufferIndex);
        ret := Ok;
      }
    }

    /** With read-back on, the FPGA was sent to the next buffer, or was cleared before it took START. */
    ghost predicate Aimed(p: Params)
      reads this`nextBufferIndex, this`target, bufs
    {
      p.verifyReadback ==> nextBufferIndex < bufs.Length && target in {0, Aim(p, nextBufferIndex)}
    }

    lemma SlotTaken(p: Params, g: Fpga, h: Fpga)
      requires nextBufferIndex < BUFFERS == bufs.Length && (p.verifyReadback ==> SlotsSet(p, BUFFERS, g))
      requires Cleared(g) || g.next == nextBufferIndex
      requires Cleared(h) || (h.next == g.next && h.slots == g.slots)
      requires target in {0, h.slots[h.next]}
      ensures Aimed(p)
    {
      hide Aim;
      if p.verifyReadback && target != 0 {
        assert SlotSet(g, nextBufferIndex, Aim(p, nextBufferIndex));
      }
    }

    /** Checks, Bus Master, START. */
    method Launch(p: Params)
      returns (ret: Ret, ghost echoes: seq<Capture>, ghost ready: Capture, ghost seen: seq<u32>, ghost master: Ret)
      requires LogOk() && nextBufferIndex < BUFFERS == bufs.Length && !f.running && !started
      requires Mon().verify == p.verifyReadback && Mon().addrs == BusAddrs() && Mon().echoes == 0
      requires forall k | 0 <= k < BUFFERS :: BufOk(bufs[k])
      modifies this`f, this`log, this`reported, this`misordered, this`base, this`target, this`started
      modifies this`ringConfigured
      ensures LogOk() && Mon().starts == old(Mon()).starts + (if ret == Ok then 1 else 0)
      ensures (p.verifyReadback ==> EchoesSeen(p, BusAddrs(), echoes)) && StatusCaptured(ready)
      ensures var checked := VerifyRet(p, BusAddrs(), echoes, ready, nextBufferIndex);
              && (checked == Ok ==> PollEnds(MasterPoll(VERSION), seen, master))
              && ret == (if checked != Ok then checked else master)
      ensures ret == Ok ==>
                && Flying(f, base, target) && base == old(f.mem) && f.busMaster
                && reported == nextBufferIndex && ringConfigured == old(ringConfigured) && !started
                && SameCallAs(old(Mon()), Mon()) && Aimed(p)
      ensures ret != Ok ==> !f.busMaster && !ringConfigured && !started
      ensures Written() == old(Written()) + [if ret == Ok then WroteStart(SwapIf(p.cmdSwap, 1)) else WroteStop(0)]
    {
      hide Watch, WritesOf, Flying, Swab32, Observe, Bit, PollEnds, BusAddrs, VerifyRet, EchoesSeen, StatusCaptured;
      hide BufOk, SlotsSet, Cleared, Aimed;
      seen, master := [], EIO;
      ret, echoes, ready := VerifyReadback(p);
      if ret != Ok {
        Abandon();
        return;
      }
      ghost var checked := f;
      ret, seen := MasterOnAndVisible();
      master := ret;
      if ret != Ok {
        Abandon();
        return;
      }
      ghost var atStart := f;
      WriteStart(p);
      SlotTaken(p, checked, atStart);
    }

    /** The fields after START was written. */
    method BeginFrame()
      requires LogOk() && BuffersOk() && InOrder(handed, counted) && bufsAllocated && f.busMaster
      requires !frameReady && !started && Flying(f, base, target)
      requires nextBufferIndex < BUFFERS && GuardsIn(base, nextBufferIndex)
      requires if ringConfigured then Counted() else nextBufferIndex == 0
      modifies this`ringConfigured, this`started, this`activeBufferIndex, this`handed, this`counted
      ensures Valid() && started && activeBufferIndex == nextBufferIndex
      ensures handed == if old(ringConfigured) then old(handed) else []
    {
      hide Watch, WritesOf, Flying, LogOk, BuffersOk, GuardsIn;
      if !ringConfigured {
        handed, counted := [], frameCounter;
      }
      ringConfigured, started, activeBufferIndex := true, true, nextBufferIndex;
    }

    /** And this was written by then. */
    ghost function LaunchWrites(p: Params, configured: bool, l: Launching, ret: Ret): seq<Event>
      requires bufs.Length == BUFFERS
      reads bufs
    {
      if !configured && l.stop != Ok then [WroteStop(0)]
      else (if configured then [] else SetupWrites(p))
           + [if ret == Ok then WroteStart(SwapIf(p.cmdSwap, 1)) else WroteStop(0)]
    }

    /** The above, and the fields after it. */
    method LaunchFrame(p: Params)
      returns (ret: Ret, ghost echoes: seq<Capture>, ghost ready: Capture, ghost seen: seq<u32>, ghost master: Ret)
      requires LogOk() && BuffersOk() && InOrder(handed, counted) && bufsAllocated
      requires !f.running && !started && !frameReady && nextBufferIndex < BUFFERS && GuardsIn(f.mem, nextBufferIndex)
      requires if ringConfigured then Counted() else nextBufferIndex == 0
      requires Mon().verify == p.verifyReadback && Mon().addrs == BusAddrs() && Mon().echoes == 0
      modifies this`f, this`log, this`reported, this`misordered, this`base, this`target, this`started
      modifies this`ringConfigured, this`activeBufferIndex, this`handed, this`counted
      ensures Valid() && Mon().starts == old(Mon()).starts + (if ret == Ok then 1 else 0)
      ensures (p.verifyReadback ==> EchoesSeen(p, BusAddrs(), echoes)) && StatusCaptured(ready)
      ensures var checked := VerifyRet(p, BusAddrs(), echoes, ready, nextBufferIndex);
              && (checked == Ok ==> PollEnds(MasterPoll(VERSION), seen, master))
              && ret == (if checked != Ok then checked else master)
      ensures ret == Ok ==>
                && started && activeBufferIndex == nextBufferIndex == reported && base == old(f.mem)
                && SameCallAs(old(Mon()), Mon()) && Aimed(p)
                && handed == if old(ringConfigured) then old(handed) else []
      ensures ret != Ok ==> !ringConfigured && !started
      ensures Written() == old(Written()) + [if ret == Ok then WroteStart(SwapIf(p.cmdSwap, 1)) else WroteStop(0)]
    {
      hide Watch, WritesOf, Flying, Swab32, Observe, Bit, PollEnds, BusAddrs, VerifyRet, EchoesSeen, StatusCaptured;
      hide Valid, LogOk, TransferOk, WaitingOk, GuardsIn, Aimed, InOrder, Counted, Ledger, BufOk, Mon, Written;
      ret, echoes, ready, seen, master := Launch(p);
      if ret == Ok {
        BeginFrame();
      } else {
        StoppedValid();
      }
    }

    /** What is left of `colorbar_start_locked` once nothing refuses the call. `next` is the buffer that
        the FPGA's index was compared with. */
    method StartRing(p: Params) returns (ret: Ret, ghost l: Launching, ghost next: nat)
      requires Valid() && bufsAllocated && !started && !frameReady
      modifies this`f, this`log, this`reported, this`misordered, this`base, this`target, this`started
      modifies this`ringConfigured, this`nextBufferIndex, this`activeBufferIndex, this`handed, this`counted
      ensures Valid()
      ensures next == if old(ringConfigured) then old(nextBufferIndex) else 0
      ensures LaunchSeen(p, BusAddrs(), old(ringConfigured), l, next)
      ensures ret == LaunchRet(p, BusAddrs(), old(ringConfigured), l, next)
      ensures bufs.Length == BUFFERS && Written() == old(Written()) + LaunchWrites(p, old(ringConfigured), l, ret)
      ensures Mon().starts == old(Mon()).starts + (if ret == Ok then 1 else 0)
      ensures ret == Ok ==>
                && started && activeBufferIndex == nextBufferIndex == reported
                && Mon().addrs == BusAddrs() && Mon().verify == p.verifyReadback && Aimed(p)
                && (old(ringConfigured) ==>
                      && handed == old(handed) && nextBufferIndex == old(nextBufferIndex)
                      && base == Fill(old(f.mem), bufs[nextBufferIndex].dma, BUFFER_SIZE, PREFILL))
                && (!old(ringConfigured) ==> handed == [] && nextBufferIndex == 0)
      ensures ret != Ok ==> !started && !frameReady && !ringConfigured
    {
      hide Watch, WritesOf, Flying, Later, Ledger, BufOk, Fill, Observe, InOrder, Counted, PollEnds;
      hide BusAddrs, VerifyRet, EchoesSeen, StatusCaptured, SetupWrites, GuardsIn, Aimed;
      hide Valid, LogOk, BuffersOk, TransferOk, WaitingOk, LaunchSeen, LaunchRet, Mon, Written, LaunchWrites;
      BetweenFrames();
      next := if ringConfigured then nextBufferIndex else 0;
      l := Launching([], EIO, [], Capture(f, 0), [], EIO);
      ghost var seen: seq<u32>;
      ret, seen := Prepare(p);
      l := l.(stopSeen := seen, stop := ret);
      if ret != Ok {
        NeverStopped(p, BusAddrs(), l, next);
        NotLaunched(p, l);
        StoppedValid();
        return;
      }
      ghost var echoes, ready, master;
      ret, echoes, ready, seen, master := LaunchFrame(p);
      l := l.(echoes := echoes, ready := ready, masterSeen := seen, master := master);
      Launched(p, BusAddrs(), old(ringConfigured), l, next, ret);
      AllWritten(p, old(ringConfigured), l, ret, old(Written()));
    }

    lemma NotLaunched(p: Params, l: Launching)
      requires bufs.Length == BUFFERS && l.stop != Ok
      ensures LaunchWrites(p, false, l, l.stop) == [WroteStop(0)]
    {
    }

    lemma BetweenFrames()
      requires Valid()
      ensures LogOk() && BuffersOk() && InOrder(handed, counted) && (ringConfigured ==> Counted())
      ensures bufs.Length == BUFFERS && (bufsAllocated ==> forall i | 0 <= i < BUFFERS :: BufOk(bufs[i]))
    {
    }

    lemma StoppedValid()
      requires LogOk() && BuffersOk() && InOrder(handed, counted)
      requires !f.busMaster && !ringConfigured && !started && !frameReady
      ensures Valid()
    {
    }

    lemma AllWritten(p: Params, configured: bool, l: Launching, ret: Ret, es: seq<Event>)
      requires bufs.Length == BUFFERS && (configured || l.stop == Ok)
      ensures es + LaunchWrites(p, configured, l, ret)
           == es + (if configured then [] else SetupWrites(p))
              + [if ret == Ok then WroteStart(SwapIf(p.cmdSwap, 1)) else WroteStop(0)]
    {
      hide SetupWrites, SwapIf;
    }

    /** Nothing at all was done. */
    twostate predicate Untouched()
      reads this
    {
      && f == old(f) && base == old(base)
      && activeBufferIndex == old(activeBufferIndex) && frameCounter == old(frameCounter)
      && Mon() == old(Mon()) && started == old(started) && frameReady == old(frameReady)
      && ringConfigured == old(ringConfigured) && nextBufferIndex == old(nextBufferIndex)
      && handed == old(handed) && shown == old(shown) && shownAt == old(shownAt)
      && lastBufferIndex == old(lastBufferIndex)
    }

    ghost predicate StartRefused(p: Params)
      reads this`bufsAllocated, this`started, this`frameReady
    {
      p.blockUnsafe || !p.allowStart || p.dmaLen != FRAME_SIZE || !bufsAllocated || started || frameReady
    }

    /** `colorbar_start_locked`. Refused outright, it does nothing; else its result is decided by what the
        registers read as. Only the next buffer is cleared once the ring is configured. */
    method Start(p: Params) returns (ret: Ret, ghost l: Launching)
      requires Valid()
      modifies this`f, this`log, this`reported, this`misordered, this`base, this`target, this`started
      modifies this`ringConfigured, this`frameReady, this`nextBufferIndex, this`activeBufferIndex
      modifies this`handed, this`counted
      ensures Valid()
      ensures old(StartRefused(p)) ==>
                && Untouched() && log == old(log)
                && ret == (if p.blockUnsafe || !p.allowStart then EPERM
                           else if p.dmaLen != FRAME_SIZE || !bufsAllocated then EINVAL
                           else EBUSY)
      ensures !old(StartRefused(p)) ==>
                && var next := if old(ringConfigured) then old(nextBufferIndex) else 0;
                && LaunchSeen(p, BusAddrs(), old(ringConfigured), l, next)
                && ret == LaunchRet(p, BusAddrs(), old(ringConfigured), l, next)
                && bufs.Length == BUFFERS && Written() == old(Written()) + LaunchWrites(p, old(ringConfigured), l, ret)
      ensures Mon().starts == old(Mon()).starts + (if ret == Ok then 1 else 0)
      ensures ret == Ok ==>
                && started && activeBufferIndex == nextBufferIndex == reported
                && Mon().addrs == BusAddrs() && Mon().verify == p.verifyReadback && Aimed(p)
                && (old(ringConfigured) ==>
                      && handed == old(handed) && nextBufferIndex == old(nextBufferIndex)
                      && base == Fill(old(f.mem), bufs[nextBufferIndex].dma, BUFFER_SIZE, PREFILL))
                && (!old(ringConfigured) ==> handed == [] && nextBufferIndex == 0)
      ensures ret != Ok && !Untouched() ==> !started && !frameReady && !ringConfigured
    {
      hide Watch, WritesOf, Flying, Later, Ledger, BufOk, Fill, Observe, Prefilled, InOrder, PollEnds;
      hide BusAddrs, LaunchSeen, LaunchRet, LaunchWrites, GuardsIn, LogOk, Aimed;
      l := Launching([], EIO, [], Capture(f, 0), [], EIO);
      if p.blockUnsafe || !p.allowStart {
        return EPERM, l;
      }
      if p.dmaLen != FRAME_SIZE || !bufsAllocated {
        return EINVAL, l;
      }
      if started || frameReady {
        return EBUSY, l;
      }
      if bufferSize < BUFFER_SIZE {
        return EINVAL, l;
      }
      ghost var next;
      ret, l, next := StartRing(p);
      if ret == Ok {
        frameReady := false;
      }
    }

    // -------------------------------------------------------------- WAIT_FRAME

    /** `colorbar_check_guard_locked`. */
    method CheckGuard(index: nat) returns (ret: Ret)
      requires bufs.Length == BUFFERS && index < BUFFERS
      ensures ret == if GuardsIn(f.mem, index) then Ok else EIO
    {
      var guard := bufs[index].dma + FRAME_SIZE;
      var i: nat := 0;
      while i < GUARD_SIZE
        invariant i <= GUARD_SIZE && Prefilled(f.mem, guard, guard + i)
      {
        if f.mem(guard + i) != PREFILL {
          return EIO;
        }
        i := i + 1;
      }
      ret := Ok;
    }

    /** `colorbar_read_cmd32`. */
    method ReadCmd(p: Params, reg: nat) returns (v: u32, ghost raw: u32, ghost at: Fpga)
      requires reg in {ACTIVE_ADDR_REG, ACTIVE_LEN_REG, BYTES_SENT_REG}
      modifies this`f
      ensures Later(old(f), at, base, target) && Later(at, f, base, target)
      ensures v == SwapIf(p.readSwap, raw) && Reads(at, reg, 0, raw)
    {
      hide Watch, WritesOf, Flying, Swab32, SwapIf, Shows;
      var got, a, w := IoRead(reg);
      raw, at := got, a;
      v := SwapIf(p.readSwap, got);
    }

    /** The three progress registers, one after the other. */
    method ReadProgress(p: Params) returns (addr: u32, len: u32, sent: u32, ghost w: Finish)
      modifies this`f
      ensures ProgressRead(w)
      ensures addr == SwapIf(p.readSwap, w.addr.raw) && len == SwapIf(p.readSwap, w.len.raw)
      ensures sent == SwapIf(p.readSwap, w.sent.raw)
      ensures Later(old(f), w.addr.at, base, target) && Later(w.addr.at, w.len.at, base, target)
      ensures Later(old(f), w.len.at, base, target) && Later(w.len.at, f, base, target)
      ensures Later(old(f), f, base, target)
    {
      hide Watch, WritesOf, Later, Flying, Swab32, SwapIf, Reads;
      ghost var f0 := f;
      var a, raw0, at0 := ReadCmd(p, ACTIVE_ADDR_REG);
      ghost var f1 := f;
      var l, raw1, at1 := ReadCmd(p, ACTIVE_LEN_REG);
      LaterTrans(at0, f1, at1, base, target);
      LaterTrans(f0, at0, at1, base, target);
      ghost var f2 := f;
      var n, raw2, at2 := ReadCmd(p, BYTES_SENT_REG);
      LaterTrans(at1, f2, at2, base, target);
      LaterTrans(at1, at2, f, base, target);
      LaterTrans(f0, at1, f, base, target);
      addr, len, sent := a, l, n;
      w := Finish([], Ok, Capture(at0, raw0), Capture(at1, raw1), Capture(at2, raw2));
    }

    /** `colorbar_finish_frame_locked`. A frame is accepted exactly when the poll saw it done, the registers
        read as this buffer's frame and the guard is intact. */
    method FinishFrame(p: Params) returns (ret: Ret, ghost w: Finish)
      requires LogOk() && Flying(f, base, target)
      requires bufs.Length == BUFFERS && activeBufferIndex < BUFFERS && BufOk(bufs[activeBufferIndex])
      modifies this`f, this`log
      ensures LogOk() && NoNewStart(old(Mon()), Mon()) && f.busMaster == old(f.busMaster)
      ensures Flying(f, base, target)
      ensures PollEnds(DonePoll(VERSION), w.seen, w.poll) && log == old(log) + Saws(w.seen)
      ensures ProgressRead(w) && ret == FinishRet(p, w, f.mem, bufs[activeBufferIndex].dma)
      ensures ret == Ok ==>
                && !f.running && GuardsIn(f.mem, activeBufferIndex)
                && OnlyFrameChanged(f.mem, base, bufs[activeBufferIndex].dma)
      ensures Written() == old(Written())
    {
      hide Watch, WritesOf, Swab32, SwapIf, Flying, Observe, PollEnds, Saws, GuardedAt;
      var r, status, at, seen := WaitStatus(DonePoll(VERSION));
      ret := r;
      PollMet(DonePoll(VERSION), seen, r);
      if ret != Ok || !ErrorFree(status) {
        var a, l, n;
        a, l, n, w := ReadProgress(p);
        w := w.(seen := seen, poll := r);
        return if ret != Ok then ret else EIO, w;
      }
      assert !at.running by {
        assert FRAME_DONE in {FRAME_DONE, IDLE};
      }
      hide Shows;
      var addr, len, sent;
      addr, len, sent, w := ReadProgress(p);
      w := w.(seen := seen, poll := r);
      if addr != bufs[activeBufferIndex].dma % TWO32 || len != FRAME_SIZE || sent != FRAME_SIZE {
        return EIO, w;
      }
      LengthReadBack(w.len.at.activeLen, w.len.raw, p.readSwap);
      assert w.addr.at.active == bufs[activeBufferIndex].dma by {
        AlignedAddress(p, bufs[activeBufferIndex].dma, addr, w.addr.raw);
      }
      FrameLanded(w.len.at, base, target);
      ret := CheckGuard(activeBufferIndex);
    }

    lemma AlignedAddress(p: Params, dma: nat, addr: u32, raw: u32)
      requires dma % 64 == 0 && dma + FRAME_SIZE <= TWO32 && addr == dma % TWO32
      requires !p.readSwap && addr == SwapIf(p.readSwap, raw)
      ensures raw == dma && raw != 0xFFFF_FFFF
    {
    }

    /** The history of a frame handed over. */
    ghost method Record(info: FrameInfo)
      requires InOrder(handed, counted) && Counted() && activeBufferIndex < bufs.Length
      requires info == FrameInfo(nextBufferIndex, Counter(frameCounter, 1), FRAME_SIZE)
      modifies this`handed, this`shown, this`shownAt
      ensures handed == old(handed) + [info] && shown == f.mem && shownAt == bufs[activeBufferIndex].dma
      ensures InOrder(handed, counted)
      ensures Slot(nextBufferIndex + 1) == Slot(|handed|) && info.frameCounter == Counter(counted, |handed|)
    {
      InOrderSnoc(handed, counted, nextBufferIndex, frameCounter);
      hide InOrder;
      handed, shown, shownAt := handed + [info], f.mem, bufs[activeBufferIndex].dma;
    }

    /** The fields after a finished frame, and what the caller is told. */
    method HandOver() returns (info: FrameInfo)
      requires Valid() && started && !f.running
      modifies this`started, this`frameReady, this`frameCounter, this`lastBufferIndex, this`nextBufferIndex
      modifies this`handed, this`shown, this`shownAt
      ensures Valid() && !started && frameReady && lastBufferIndex == activeBufferIndex && shown == f.mem
      ensures info == FrameInfo(lastBufferIndex, frameCounter, FRAME_SIZE) && handed == old(handed) + [info]
      ensures frameCounter == Counter(old(frameCounter), 1)
    {
      hide Watch, WritesOf, BuffersOk, LogOk, Flying, GuardsIn, InOrder, Slot, Counter;
      FourBuffers();
      info := FrameInfo(activeBufferIndex, Counter(frameCounter, 1), FRAME_SIZE);
      Record(info);
      started, frameReady, frameCounter, lastBufferIndex := false, true, info.frameCounter, activeBufferIndex;
      nextBufferIndex := Slot(activeBufferIndex + 1);
      assert Counted() && TransferOk() && WaitingOk();
      hide Counted, TransferOk, WaitingOk;
    }

    lemma FourBuffers()
      requires BuffersOk()
      ensures bufs.Length == BUFFERS
    {
    }

    /** A finished frame is handed over and the result copied to the caller. */
    method TakeFrame(p: Params) returns (ret: Ret, info: FrameInfo, ghost w: Finish, ghost m: Mem)
      requires Valid() && started
      modifies this`f, this`log, this`started, this`frameReady, this`nextBufferIndex
      modifies this`handed, this`shown, this`shownAt, this`frameCounter, this`lastBufferIndex
      ensures Valid() && Mon().starts == old(Mon()).starts && Written() == old(Written())
      ensures bufs.Length == BUFFERS && activeBufferIndex < BUFFERS
      ensures PollEnds(DonePoll(VERSION), w.seen, w.poll) && log == old(log) + Saws(w.seen) && ProgressRead(w)
      ensures var wanted := FinishRet(p, w, m, bufs[activeBufferIndex].dma);
              if wanted == Ok then ret in {Ok, EFAULT} else ret == wanted
      ensures ret == Ok ==> m == f.mem
      ensures ret == Ok ==>
                && !started && ringConfigured && frameReady && handed == old(handed) + [info]
                && info == FrameInfo(old(nextBufferIndex), Counter(old(frameCounter), 1), FRAME_SIZE)
                && lastBufferIndex == old(nextBufferIndex) && shown == f.mem
                && OnlyFrameChanged(f.mem, base, bufs[lastBufferIndex].dma) && GuardsIn(f.mem, lastBufferIndex)
    {
      hide Watch, WritesOf, Flying, Swab32, Observe, Ledger, BufOk, OnlyFrameChanged, Prefilled;
      hide InOrder, Counted, LogOk, Slot, Counter;
      hide PollEnds, ProgressRead, FinishRet;
      info := FrameInfo(0, 0, 0);
      ret, w := FinishFrame(p);
      m := f.mem;
      if ret == Ok {
        info := HandOver();
        ret := CopyToUser();
      }
    }

    /** COLORBAR_IOC_WAIT_FRAME. A frame handed over is the next in ring order, and since its START
        nothing in memory has changed but that frame. Any failure stops the ring. */
    method WaitFrame(p: Params) returns (ret: Ret, info: FrameInfo, ghost w: Finish, ghost m: Mem)
      requires Valid()
      modifies this`f, this`log, this`reported, this`misordered, this`base, this`target, this`started
      modifies this`ringConfigured, this`frameReady, this`nextBufferIndex, this`activeBufferIndex
      modifies this`handed, this`shown, this`shownAt, this`frameCounter, this`lastBufferIndex
      ensures Valid() && Mon().starts == old(Mon()).starts
      ensures !old(started) ==> ret == EINVAL && Untouched()
      ensures old(started) && ret != Ok ==> !started && !ringConfigured && !frameReady
      ensures old(started) ==>
                && bufs.Length == BUFFERS && old(activeBufferIndex) < BUFFERS
                && PollEnds(DonePoll(VERSION), w.seen, w.poll) && ProgressRead(w)
                && var wanted := FinishRet(p, w, m, bufs[old(activeBufferIndex)].dma);
                   if wanted == Ok then ret in {Ok, EFAULT} else ret == wanted
      ensures ret == Ok ==>
                && !started && ringConfigured && frameReady && handed == old(handed) + [info]
                && info == FrameInfo(old(nextBufferIndex), Counter(old(frameCounter), 1), FRAME_SIZE)
                && lastBufferIndex == old(nextBufferIndex) && shown == f.mem
                && OnlyFrameChanged(f.mem, old(base), bufs[lastBufferIndex].dma) && GuardsIn(f.mem, lastBufferIndex)
      ensures Written() == old(Written()) + if old(started) && ret != Ok then [WroteStop(0)] else []
    {
      hide Watch, WritesOf, Flying, Swab32, Observe, Ledger, BufOk, OnlyFrameChanged, Prefilled, GuardsIn;
      hide InOrder, Counted, LogOk, Slot, Counter, PollEnds, ProgressRead, FinishRet, Mon, Written;
      hide Valid, BuffersOk, TransferOk, WaitingOk;
      info := FrameInfo(0, 0, 0);
      w, m := Finish([], EIO, Capture(f, 0), Capture(f, 0), Capture(f, 0)), f.mem;
      if !started {
        return EINVAL, info, w, m;
      }
      ret, info, w, m := TakeFrame(p);
      if ret != Ok {
        BetweenFrames();
        StopLocked();
        StoppedValid();
      }
    }

    // -------------------------------------------------------------- the other ioctls

    /** COLORBAR_IOC_STOP and COLORBAR_IOC_SAFE_STOP. */
    method Stop()
      requires Valid()
      modifies this`f, this`log, this`reported, this`misordered, this`base, this`target, this`started
      modifies this`ringConfigured, this`frameReady, this`nextBufferIndex, this`activeBufferIndex
      ensures Valid() && Mon().starts == old(Mon()).starts
      ensures !started && !ringConfigured && !frameReady && !f.busMaster
      ensures Written() == old(Written()) + [WroteStop(0)]
    {
      hide Watch, WritesOf, Flying, Swab32, Observe, Ledger, BufOk;
      StopLocked();
    }

    /** COLORBAR_IOC_FREE_BUFS: all four blocks are returned, after Bus Master is off. */
    method Free()
      requires Valid()
      modifies bufs, this`f, this`log, this`reported, this`misordered, this`base, this`target, this`heap
      modifies this`bufsAllocated, this`ringConfigured, this`started, this`frameReady, this`bufferSize
      modifies this`frameCounter, this`lastBufferIndex, this`activeBufferIndex, this`nextBufferIndex
      ensures Valid() && Mon().starts == old(Mon()).starts
      ensures !bufsAllocated && heap == map[] && !f.busMaster && !ringConfigured && !started && !frameReady
      ensures Written() == old(Written()) + [WroteStop(0)]
    {
      StopLocked();
      FreeBuffers();
    }

    /** The status register, raw and decoded. */
    method ReadRawStatus() returns (raw: u32, status: u32, ghost at: Fpga)
      modifies this`f
      ensures Later(old(f), at, base, target) && Later(at, f, base, target)
      ensures StatusCaptured(Capture(at, raw)) && status == raw && (Version(status) == VERSION ==> Shows(at, status))
    {
      hide Watch, WritesOf, Later, Flying, Swab32, Bit, StatusCaptured;
      var got, a, word := IoRead(STATUS_REG);
      raw, at := got, a;
      status := DecodeStatus(raw, VERSION);
      DecodedExactly(word, raw, VERSION);
      Captured(at, raw, word);
    }

    /** The three registers of the transfer, one after the other, as the FPGA held them at those
        moments; a transfer may move on in between. */
    method ReadTransfer(p: Params) returns (addr: u32, len: u32, sent: u32, ghost at: seq<Fpga>, ghost raw: seq<u32>)
      modifies this`f
      ensures |at| == |raw| == 3
      ensures addr == SwapIf(p.readSwap, raw[0]) && Reads(at[0], ACTIVE_ADDR_REG, 0, raw[0])
      ensures len == SwapIf(p.readSwap, raw[1]) && Reads(at[1], ACTIVE_LEN_REG, 0, raw[1])
      ensures sent == SwapIf(p.readSwap, raw[2]) && Reads(at[2], BYTES_SENT_REG, 0, raw[2])
      ensures Later(old(f), at[0], base, target) && Later(at[0], at[1], base, target)
      ensures Later(at[1], at[2], base, target) && Later(at[2], f, base, target)
    {
      hide Watch, WritesOf, Later, Flying, Swab32, SwapIf, Reads;
      var a, raw0, at0 := ReadCmd(p, ACTIVE_ADDR_REG);
      ghost var f0 := f;
      var l, raw1, at1 := ReadCmd(p, ACTIVE_LEN_REG);
      ghost var f1 := f;
      LaterTrans(at0, f0, at1, base, target);
      var n, raw2, at2 := ReadCmd(p, BYTES_SENT_REG);
      LaterTrans(at1, f1, at2, base, target);
      addr, len, sent, at, raw := a, l, n, [at0, at1, at2], [raw0, raw1, raw2];
    }

    /** COLORBAR_IOC_GET_STATUS without the copy to user space. */
    method GetStatus(p: Params)
      returns (snapshot: Snapshot, ghost at: seq<Fpga>, ghost raw: seq<u32>, ghost st: Capture)
      requires Valid()
      modifies this`f
      ensures Valid() && |at| == |raw| == 3
      ensures var k := if !started && frameCounter != 0 then lastBufferIndex else nextBufferIndex;
              snapshot.dmaAddrLow == if bufsAllocated then bufs[k % BUFFERS].dma else 0
      ensures StatusCaptured(st) && snapshot.raw == snapshot.status == st.raw && snapshot.frameCounter == frameCounter
      ensures Later(old(f), st.at, base, target) && Later(st.at, at[0], base, target)
      ensures snapshot.activeAddr == SwapIf(p.readSwap, raw[0]) && Reads(at[0], ACTIVE_ADDR_REG, 0, raw[0])
      ensures snapshot.activeLen == SwapIf(p.readSwap, raw[1]) && Reads(at[1], ACTIVE_LEN_REG, 0, raw[1])
      ensures snapshot.bytesSent == SwapIf(p.readSwap, raw[2]) && Reads(at[2], BYTES_SENT_REG, 0, raw[2])
      ensures Later(at[0], at[1], base, target) && Later(at[1], at[2], base, target)
    {
      hide Watch, WritesOf, Flying, Swab32, SwapIf, Shows, Ledger, InOrder, Counted, GuardsIn, Bit, Reads;
      hide StatusCaptured;
      var raw0, status, at0 := ReadRawStatus();
      st := Capture(at0, raw0);
      ghost var f0 := f;
      var k := if started then activeBufferIndex else if frameCounter != 0 then lastBufferIndex else nextBufferIndex;
      var low := if bufsAllocated then bufs[k % BUFFERS].dma % TWO32 else 0;
      var addr, len, sent;
      addr, len, sent, at, raw := ReadTransfer(p);
      LaterTrans(at0, f0, at[0], base, target);
      snapshot := Snapshot(raw0, status, low, addr, len, sent, frameCounter);
    }

    /** Time passes between calls. */
    method Idle()
      requires Valid()
      modifies this`f
      ensures Valid()
    {
      hide Watch, WritesOf, Flying, Ledger;
      Pass();
    }

    /** `colorbar_read`: the copied bytes and the new file position. Reaching the last byte gives the
        buffer back. */
    method Read(pos: int, count: nat) returns (ret: Ret, data: seq<byte>, newPos: int)
      requires Valid()
      modifies this`frameReady
      ensures Valid()
      ensures ret == EINVAL <==> !old(frameReady)
      ensures ret in {Ok, EINVAL, EFAULT} && (ret != Ok ==> newPos == pos && data == [])
      ensures ret == Ok ==>
                && newPos == pos + |data|
                && |data| == (if 0 <= pos < FRAME_SIZE then Min(count, FRAME_SIZE - pos) else 0)
                && forall k | 0 <= k < |data| :: data[k] == shown(shownAt + pos + k)
      ensures frameReady <==> old(frameReady) && !(ret == Ok && 0 <= pos < FRAME_SIZE && newPos == FRAME_SIZE)
    {
      hide Watch, WritesOf, Flying, LogOk, InOrder, Counted, GuardsIn, Ledger, BufOk;
      assert frameReady ==>
          && bufsAllocated && lastBufferIndex < BUFFERS == bufs.Length
          && f.mem == shown && shownAt == bufs[lastBufferIndex].dma;
      hide BuffersOk;
      ret, data, newPos := EINVAL, [], pos;
      if !bufsAllocated || !frameReady {
        return;
      }
      ret := Ok;
      if pos < 0 || pos >= FRAME_SIZE {
        return;
      }
      var toCopy := Min(count, FRAME_SIZE - pos);
      ret := CopyToUser();
      if ret == Ok {
        var m, src := f.mem, bufs[lastBufferIndex].dma + pos;
        data := seq(toCopy, k => m(src + k));
        newPos := pos + toCopy;
        if newPos == FRAME_SIZE {
          frameReady := false;
        }
      }
    }

    /** A fresh device after `probe`, before anything was allocated, over an FPGA in any state. */
    constructor (start: Fpga)
      requires !start.busMaster
      ensures Valid() && fresh(bufs) && !bufsAllocated && !started && !frameReady && handed == []
    {
      bufs := new Buf[BUFFERS](_ => Buf(0, 0));
      f, heap := start, map[];
      bufsAllocated, ringConfigured, started, frameReady := false, false, false, false;
      bufferSize, frameCounter, lastBufferIndex, activeBufferIndex, nextBufferIndex := 0, 0, 0, 0, 0;
      log, reported, misordered := [], -1, false;
      base, target, handed, counted, shown, shownAt := start.mem, 0, [], 0, start.mem, 0;
    }
  }
}
