/** The user side of the ring driver, pcie_color_rx.c: `read_full` in a world of short reads,
    interrupted calls and other users of the device, and one whole capture. */
module FrameReader {
  import opened Words
  import opened HostMemory
  import opened DriverLog
  import opened RingFpga
  import opened RingDriver

  datatype Errno = NoError | Interrupted | Failed(ret: Ret) | EndOfFile

  /** The frame that WAIT_FRAME handed over last, byte by byte. */
  ghost function HandedOver(dev: RingDevice): (bytes: seq<byte>)
    reads dev`shown, dev`shownAt
    ensures |bytes| == FRAME_SIZE
  {
    var (m, a) := (dev.shown, dev.shownAt);
    seq(FRAME_SIZE, k => m(a + k))
  }

  /** Other users of the device meanwhile: START, WAIT_FRAME, ALLOC and GET_STATUS calls in any
      order and with any parameters, and time. None of them touches a frame that waits. */
  method OthersMeanwhile(dev: RingDevice)
    requires dev.Valid() && dev.frameReady
    modifies dev, dev.bufs
    ensures dev.Valid() && dev.frameReady && HandedOver(dev) == old(HandedOver(dev))
    ensures dev.handed == old(dev.handed) && dev.lastBufferIndex == old(dev.lastBufferIndex)
  {
    var n: nat := *;
    while n > 0
      invariant dev.Valid() && dev.frameReady && HandedOver(dev) == old(HandedOver(dev))
      invariant dev.handed == old(dev.handed) && dev.lastBufferIndex == old(dev.lastBufferIndex)
    {
      OtherCall(dev);
      n := n - 1;
    }
  }

  method OtherCall(dev: RingDevice)
    requires dev.Valid() && dev.frameReady
    modifies dev, dev.bufs
    ensures dev.Valid() && dev.frameReady && HandedOver(dev) == old(HandedOver(dev))
    ensures dev.handed == old(dev.handed) && dev.lastBufferIndex == old(dev.lastBufferIndex)
  {
    var p: Params := *;
    var kind: nat := *;
    if kind == 0 {
      var r, l := dev.Start(p);
    } else if kind == 1 {
      var r, info, w, m := dev.WaitFrame(p);
    } else if kind == 2 {
      var r, offers := dev.Alloc(p);
    } else if kind == 3 {
      var s, at, raw, st := dev.GetStatus(p);
    } else {
      dev.Idle();
    }
  }

  /** The driver's read, in terms of the waiting frame. */
  method DriverRead(dev: RingDevice, pos: nat, count: nat) returns (ret: Ret, data: seq<byte>)
    requires dev.Valid() && dev.frameReady && pos < FRAME_SIZE
    modifies dev`frameReady
    ensures dev.Valid() && (dev.frameReady <==> ret != Ok || pos + |data| < FRAME_SIZE)
    ensures ret == Ok ==> |data| == Min(count, FRAME_SIZE - pos) && data == old(HandedOver(dev))[pos..pos + |data|]
    ensures HandedOver(dev) == old(HandedOver(dev))
  {
    hide RingDevice.Valid;
    var newPos;
    ret, data, newPos := dev.Read(pos, count);
  }

  /** `read(2)` on the device: it may be interrupted before it starts, and the kernel may pass on
      less than was asked for. */
  method ReadCall(dev: RingDevice, pos: nat, len: nat, signals: bool) returns (err: Errno, got: seq<byte>)
    requires dev.Valid() && dev.frameReady && pos + len == FRAME_SIZE && len > 0
    modifies dev, dev.bufs
    ensures dev.Valid() && dev.handed == old(dev.handed)
    ensures |got| <= len && (err != NoError ==> got == []) && (err == Interrupted ==> signals)
    ensures err == NoError ==> got == old(HandedOver(dev))[pos..pos + |got|]
    ensures dev.frameReady <==> |got| < len
    ensures HandedOver(dev) == old(HandedOver(dev))
  {
    hide RingDevice.Valid, HandedOver;
    OthersMeanwhile(dev);
    var interrupted: bool := *;
    if signals && interrupted {
      return Interrupted, [];
    }
    var count: nat := *;
    var ret, data := DriverRead(dev, pos, Min(count, len));
    if ret != Ok {
      return Failed(ret), [];
    }
    err, got := NoError, data;
  }

  /** What one call of read gave. */
  datatype Reply = Reply(err: Errno, got: seq<byte>)

  predicate GoesOn(r: Reply) { r.err == Interrupted || (r.err == NoError && r.got != []) }

  predicate AllGoOn(replies: seq<Reply>) { forall k | 0 <= k < |replies| :: GoesOn(replies[k]) }

  function Collected(replies: seq<Reply>): seq<byte> {
    if replies == [] then [] else Collected(replies[..|replies| - 1]) + replies[|replies| - 1].got
  }

  /** A call that ends the loop early, and how. */
  function Fault(r: Reply): Errno { if GoesOn(r) then NoError else if r.err == NoError then EndOfFile else r.err }

  /** The loop ended at the first reply that filled the buffer or was neither data nor an interrupt. */
  predicate ReadEnds(replies: seq<Reply>, err: Errno) {
    && replies != [] && AllGoOn(replies[..|replies| - 1])
    && |Collected(replies[..|replies| - 1])| < FRAME_SIZE
    && err == Fault(replies[|replies| - 1]) && (err == NoError <==> |Collected(replies)| == FRAME_SIZE)
  }

  lemma OneMoreReply(replies: seq<Reply>, r: Reply)
    requires AllGoOn(replies) && |Collected(replies)| < FRAME_SIZE && |Collected(replies)| + |r.got| <= FRAME_SIZE
    requires r.err != NoError ==> r.got == []
    ensures Collected(replies + [r]) == Collected(replies) + r.got
    ensures GoesOn(r) ==> AllGoOn(replies + [r])
    ensures !GoesOn(r) || |Collected(replies + [r])| == FRAME_SIZE ==> ReadEnds(replies + [r], Fault(r))
  {
    assert (replies + [r])[..|replies|] == replies;
  }

  /** `read_full` from the start of the file, interrupted any finite number of times. It ends as its
      replies say; when it succeeds it has collected exactly the frame that was waiting, whatever the
      schedule, and has given its buffer back. */
  method ReadFull(dev: RingDevice, data: array<byte>) returns (err: Errno, ghost replies: seq<Reply>)
    requires dev.Valid() && dev.frameReady && data.Length == FRAME_SIZE
    modifies dev, dev.bufs, data
    ensures dev.Valid() && dev.handed == old(dev.handed)
    ensures HandedOver(dev) == old(HandedOver(dev))
    ensures ReadEnds(replies, err) && Collected(replies) <= HandedOver(dev) && Collected(replies) <= data[..]
    ensures if err == NoError then data[..] == HandedOver(dev) && !dev.frameReady else dev.frameReady
    ensures err != Interrupted
  {
    hide RingDevice.Valid, HandedOver, Collected, AllGoOn, ReadEnds;
    var off: nat, len: nat := 0, FRAME_SIZE;
    var interrupts: nat := *;
    replies := [];
    NoReply();
    while len > 0
      invariant off + len == FRAME_SIZE && dev.Valid() && dev.handed == old(dev.handed)
      invariant dev.frameReady <==> len > 0
      invariant HandedOver(dev) == old(HandedOver(dev))
      invariant data[..off] == old(HandedOver(dev))[..off] == Collected(replies)
      invariant if len > 0 then AllGoOn(replies) else ReadEnds(replies, NoError)
      decreases len, interrupts
    {
      var e, got := ReadCall(dev, off, len, interrupts > 0);
      OneMoreReply(replies, Reply(e, got));
      replies := replies + [Reply(e, got)];
      if e == Interrupted {
        interrupts := interrupts - 1;
        continue;
      }
      if e != NoError {
        return e, replies;
      }
      if got == [] {
        return EndOfFile, replies;
      }
      Store(data, off, got);
      off, len := off + |got|, len - |got|;
    }
    err := NoError;
  }

  lemma NoReply()
    ensures Collected([]) == [] && AllGoOn([])
  {
  }

  /** The kernel's copy into the caller's buffer. */
  method Store(data: array<byte>, off: nat, got: seq<byte>)
    requires off + |got| <= data.Length
    modifies data
    ensures data[..off] == old(data[..off]) && data[off..off + |got|] == got
  {
    forall k | 0 <= k < |got| {
      data[off + k] := got[k];
    }
  }

  /** What decided a capture on an allocated ring. */
  datatype Run = Run(
    addrs: seq<u32>, configured: bool, next: nat, dma: nat,
    launch: Launching, finish: Finish, mem: Mem, replies: seq<Reply>)

  predicate Refused(p: Params, busy: bool) { p.blockUnsafe || !p.allowStart || p.dmaLen != FRAME_SIZE || busy }

  function RefusedRet(p: Params): Ret {
    if p.blockUnsafe || !p.allowStart then EPERM else if p.dmaLen != FRAME_SIZE then EINVAL else EBUSY
  }

  /** The first step that fails decides: START, then WAIT_FRAME, then the reads. */
  ghost predicate CaptureEnds(pStart: Params, pWait: Params, c: Run, ret: Ret, err: Errno) {
    && LaunchSeen(pStart, c.addrs, c.configured, c.launch, c.next)
    && var launched := LaunchRet(pStart, c.addrs, c.configured, c.launch, c.next);
       if launched != Ok then ret == launched
       else
         && PollEnds(DonePoll(VERSION), c.finish.seen, c.finish.poll) && ProgressRead(c.finish)
         && var finished := FinishRet(pWait, c.finish, c.mem, c.dma);
            if finished != Ok then ret == finished
            else ret in {Ok, EFAULT} && (ret == Ok ==> ReadEnds(c.replies, err))
  }

  /** START, WAIT_FRAME, `read_full` and STOP on an allocated ring. */
  method CaptureFrame(dev: RingDevice, pStart: Params, pWait: Params, data: array<byte>)
    returns (ret: Ret, err: Errno, info: FrameInfo, ghost c: Run)
    requires dev.Valid() && dev.bufsAllocated && data.Length == FRAME_SIZE
    modifies dev, dev.bufs, data
    ensures dev.Valid()
    ensures c.configured == old(dev.ringConfigured) && c.addrs == old(dev.BusAddrs())
    ensures if Refused(pStart, old(dev.started || dev.frameReady)) then ret == RefusedRet(pStart)
            else CaptureEnds(pStart, pWait, c, ret, err)
    ensures ret == Ok && err == NoError ==>
              && info.validSize == FRAME_SIZE
              && info.bufferIndex == (if old(dev.ringConfigured) then old(dev.nextBufferIndex) else 0)
              && dev.handed != [] && info == dev.handed[|dev.handed| - 1] && data[..] == HandedOver(dev)
  {
    hide RingDevice.Valid, HandedOver, RingDevice.Untouched, RingDevice.SetupWrites, RingDevice.GuardsIn,
      RingDevice.Written, RingDevice.Mon, OnlyFrameChanged, LaunchSeen, LaunchRet, PollEnds, ProgressRead, FinishRet,
      ReadEnds, RingDevice.BusAddrs, RingDevice.Aimed, RingDevice.LaunchWrites, Collected;
    err, info := EndOfFile, FrameInfo(0, 0, 0);
    ghost var (addrs, configured) := (dev.BusAddrs(), dev.ringConfigured);
    ghost var next := if configured then dev.nextBufferIndex else 0;
    ghost var l;
    ret, l := dev.Start(pStart);
    ghost var nothing := Capture(dev.f, 0);
    c := Run(addrs, configured, next, 0, l, Finish([], EIO, nothing, nothing, nothing), dev.f.mem, []);
    if ret == Ok {
      ghost var w, m;
      ret, info, w, m := dev.WaitFrame(pWait);
      c := c.(dma := dev.bufs[next].dma, finish := w, mem := m);
      if ret == Ok {
        ghost var replies;
        err, replies := ReadFull(dev, data);
        c := c.(replies := replies);
      }
      dev.Stop();
    }
  }

  /** `capture_once`, up to the image checks: ALLOC, then the above, then FREE. On success `data` is
      the frame handed over last, from buffer 0 on a fresh ring; a failure is that of the first step
      that failed. However it ends after ALLOC succeeded, every buffer is returned and Bus Master is
      off. */
  method CaptureOnce(dev: RingDevice, pAlloc: Params, pStart: Params, pWait: Params, data: array<byte>)
    returns (ret: Ret, err: Errno, info: FrameInfo, ghost c: Run)
    requires dev.Valid() && data.Length == FRAME_SIZE
    modifies dev, dev.bufs, data
    ensures dev.Valid()
    ensures pAlloc.dmaLen != FRAME_SIZE ==> ret == EINVAL
    ensures pAlloc.dmaLen == FRAME_SIZE && (ret == ENOMEM ==> old(dev.bufsAllocated)) ==>
              if Refused(pStart, old(dev.started || dev.frameReady)) then ret == RefusedRet(pStart)
              else CaptureEnds(pStart, pWait, c, ret, err) && c.configured == old(dev.ringConfigured)
    ensures ret == Ok && err == NoError ==>
              && info.validSize == FRAME_SIZE
              && info.bufferIndex == (if old(dev.ringConfigured) then old(dev.nextBufferIndex) else 0)
              && dev.handed != [] && info == dev.handed[|dev.handed| - 1] && data[..] == HandedOver(dev)
    ensures dev.bufsAllocated || dev.heap != map[] || dev.f.busMaster ==>
              ret == EINVAL && pAlloc.dmaLen != FRAME_SIZE && old(dev.bufsAllocated)
  {
    hide RingDevice.Valid, HandedOver, RingDevice.Untouched, RingDevice.Written, RingDevice.Mon, CaptureEnds,
      RingDevice.BusAddrs;
    err, info := EndOfFile, FrameInfo(0, 0, 0);
    c := Run([], false, 0, 0, Launching([], EIO, [], Capture(dev.f, 0), [], EIO),
             Finish([], EIO, Capture(dev.f, 0), Capture(dev.f, 0), Capture(dev.f, 0)), dev.f.mem, []);
    ghost var offers;
    ret, offers := dev.Alloc(pAlloc);
    if ret != Ok {
      if !dev.bufsAllocated {
        NothingAllocated(dev);
      }
      return;
    }
    ret, err, info, c := CaptureFrame(dev, pStart, pWait, data);
    dev.Free();
  }

  lemma NothingAllocated(dev: RingDevice)
    requires dev.Valid() && !dev.bufsAllocated
    ensures dev.heap == map[] && !dev.f.busMaster
  {
  }
}
