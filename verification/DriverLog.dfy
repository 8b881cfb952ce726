/** What both drivers share: the status word as they read it, return codes, and the discipline of
    their register writes, stated on the log of what one driver did on the bus. */
module DriverLog {
  import opened Words
  import DmaEngine

  const FRAME_SIZE: nat := DmaEngine.FRAME_BYTES
  const BUFFER_SIZE: nat := 4 * 1024 * 1024
  const GUARD_SIZE: nat := BUFFER_SIZE - FRAME_SIZE
  const PREFILL: byte := 0xA5

  datatype Ret = Ok | EIO | ETIMEDOUT | EPERM | EINVAL | ENOMEM | EBUSY | EFAULT | EAGAIN

  /** Module parameters; writable at any time, so every call gets its own. */
  datatype Params = Params(
    cmdSwap: bool, addrSwap: bool, readSwap: bool,
    allowStart: bool, blockUnsafe: bool, dmaLen: u32, verifyReadback: bool)

  /** `struct colorbar_frame_info`. */
  datatype FrameInfo = FrameInfo(bufferIndex: nat, frameCounter: nat, validSize: nat)

  /** Reaching user space may fail. */
  method CopyToUser() returns (ret: Ret)
    ensures ret in {Ok, EFAULT}
  {
    var fault: bool := *;
    ret := if fault then EFAULT else Ok;
  }

  function Min(a: nat, b: nat): nat { if a < b then a else b }

  function SwapIf(swap: bool, w: u32): u32 { if swap then Swab32(w) else w }

  // ---------------------------------------------------------------- status word

  const BUSY: nat := 0
  const FRAME_DONE: nat := 1
  const IDLE: nat := 2
  const STOP_ACK: nat := 3
  const HOST_ARM: nat := 4
  const START_CMD_SEEN: nat := 5
  const ADDR_VALID: nat := 6
  const LEN_VALID: nat := 7
  const DMA_ENABLE: nat := 8
  const STOP_PENDING: nat := 13
  const HOST_START: nat := 14
  const RC_CFG_EP: nat := 15
  const ERRORS: set<nat> := {9, 10, 11, 12}

  function Version(status: u32): byte { status / 0x100_0000 }

  /** `colorbar_decode_status`: whichever byte order shows the expected version. */
  function DecodeStatus(raw: u32, version: byte): u32 {
    if Version(raw) == version then raw
    else if Version(Swab32(raw)) == version then Swab32(raw)
    else raw
  }

  lemma SwabAllOnes()
    ensures Swab32(0xFFFF_FFFF) == 0xFFFF_FFFF
  {
    var w: u32 := 0xFFFF_FFFF;
    assert ByteOf(w, 0) == 0xFF && ByteOf(w, 1) == 0xFF && ByteOf(w, 2) == 0xFF && ByteOf(w, 3) == 0xFF;
  }

  lemma SwabZero()
    ensures Swab32(0) == 0
  {
  }

  /** What any read of a status register decodes to: itself. The other byte order never shows the
      version. */
  lemma DecodedExactly(status: u32, raw: u32, version: byte)
    requires 0 < version < 0xFF
    requires status == 0 || Version(status) == version
    requires raw == status || raw == 0xFFFF_FFFF
    ensures DecodeStatus(raw, version) == raw && Version(0xFFFF_FFFF) != version
  {
    SwabAllOnes();
    SwabZero();
    hide Swab32;
  }

  lemma FrameSizeIsNoPalindrome()
    ensures Swab32(FRAME_SIZE) != FRAME_SIZE
  {
    assert ByteOf(FRAME_SIZE, 1) == 0x48;
    SwabReversesBytes(FRAME_SIZE, 2);
    assert ByteOf(FRAME_SIZE, 2) == 0x3F;
  }

  /** Reading ACTIVE_LEN back as the frame size settles the byte order. */
  lemma LengthReadBack(len: u32, raw: u32, swap: bool)
    requires len == 0 || len == FRAME_SIZE
    requires raw == len || raw == 0xFFFF_FFFF
    requires SwapIf(swap, raw) == FRAME_SIZE
    ensures !swap && len == FRAME_SIZE
  {
    SwabAllOnes();
    SwabZero();
    FrameSizeIsNoPalindrome();
    hide Swab32;
  }

  /** `(status & mask) == mask` and `!(status & mask)` for the mask of the bits `ks`. */
  predicate AllSet(status: u32, ks: set<nat>) { forall k | k in ks :: Bit(status, k) }
  predicate AllClear(status: u32, ks: set<nat>) { forall k | k in ks :: !Bit(status, k) }

  predicate ErrorFree(status: u32) { AllClear(status, ERRORS) }

  predicate Stopped(status: u32, version: byte) {
    Version(status) == version && AllSet(status, {STOP_ACK, IDLE}) && AllClear(status, {BUSY, STOP_PENDING})
  }

  predicate ReadyToStart(status: u32, version: byte) {
    && Version(status) == version && ErrorFree(status)
    && AllSet(status, {IDLE, HOST_ARM, ADDR_VALID, LEN_VALID}) && !Bit(status, BUSY)
  }

  predicate MasterVisible(status: u32, version: byte) {
    && Version(status) == version && ErrorFree(status)
    && Bit(status, DMA_ENABLE) && AllClear(status, {BUSY, STOP_PENDING})
  }

  // ---------------------------------------------------------------- polling

  /** What a poll asks of a status word. */
  datatype Poll = Poll(version: byte, requiredSet: set<nat>, requiredClear: set<nat>, failOnError: bool)

  predicate Fails(q: Poll, status: u32) { q.failOnError && Version(status) == q.version && !ErrorFree(status) }

  predicate Meets(q: Poll, status: u32) {
    Version(status) == q.version && AllSet(status, q.requiredSet) && AllClear(status, q.requiredClear)
  }

  /** What one word makes of the poll; a time-out is final only when the time is up. */
  function Settles(q: Poll, status: u32): Ret {
    if Fails(q, status) then EIO else if Meets(q, status) then Ok else ETIMEDOUT
  }

  predicate Unsettled(q: Poll, seen: seq<u32>) { forall k | 0 <= k < |seen| :: Settles(q, seen[k]) == ETIMEDOUT }

  /** A poll that saw these words ended at the first that settled it, or timed out. */
  predicate PollEnds(q: Poll, seen: seq<u32>, ret: Ret) {
    seen != [] && Unsettled(q, seen[..|seen| - 1]) && ret == Settles(q, seen[|seen| - 1])
  }

  lemma OneMorePoll(q: Poll, seen: seq<u32>, status: u32)
    requires Unsettled(q, seen)
    ensures PollEnds(q, seen + [status], Settles(q, status))
    ensures Settles(q, status) == ETIMEDOUT ==> Unsettled(q, seen + [status])
  {
    assert (seen + [status])[..|seen|] == seen;
    hide Settles;
  }

  lemma PollMet(q: Poll, seen: seq<u32>, ret: Ret)
    requires PollEnds(q, seen, ret)
    ensures ret == Ok ==> Meets(q, seen[|seen| - 1]) && !Fails(q, seen[|seen| - 1])
    ensures ret in {Ok, EIO, ETIMEDOUT}
  {
  }

  function StopPoll(v: byte): Poll { Poll(v, {STOP_ACK, IDLE}, {BUSY, STOP_PENDING}, false) }

  function MasterPoll(v: byte): Poll { Poll(v, {DMA_ENABLE}, {BUSY, STOP_PENDING} + ERRORS, true) }

  function DonePoll(v: byte): Poll { Poll(v, {FRAME_DONE, IDLE}, {BUSY, STOP_PENDING}, true) }

  // ---------------------------------------------------------------- bus discipline

  datatype Event =
    | CallBegins(verify: bool, addrs: seq<u32>)
    | WroteArm(value: u32) | WroteStop(value: u32) | WroteStart(value: u32) | WroteOther(reg: nat, value: u32)
    | SawStatus(status: u32)
    | SawEcho(index: nat, value: u32)
    | MasterOn | MasterOff

  /** The event of a register write. */
  function WriteEvent(reg: nat, v: u32): Event {
    if reg == DmaEngine.ARM_REG then WroteArm(v)
    else if reg == DmaEngine.STOP_REG then WroteStop(v)
    else if reg == DmaEngine.START_REG then WroteStart(v)
    else WroteOther(reg, v)
  }

  /** What has been established so far in the current call, which announces the buffer addresses it
      expects. `starts` counts START writes; `violated` is sticky. */
  datatype Monitor = Monitor(
    stopSent: bool, acked: bool, verify: bool, addrs: seq<u32>, echoes: nat, ready: bool, master: bool, visible: bool,
    starts: nat, violated: bool)

  /** One event. ARM needs a STOP of this call whose acknowledgement was seen. START needs, all of
      them later than any other write of this call, the pre-start status, every address echo (if
      read-back is on), and Bus Master on and seen by the FPGA. */
  function Observe(m: Monitor, e: Event, version: byte, buffers: nat): Monitor {
    match e
    case CallBegins(v, x) => Monitor(false, false, v, x, 0, false, m.master, false, m.starts, m.violated)
    case WroteStop(_) => m.(stopSent := true, acked := false, echoes := 0, ready := false, visible := false)
    case WroteArm(_) => m.(violated := m.violated || !m.acked, echoes := 0, ready := false, visible := false)
    case WroteOther(_, _) => m.(echoes := 0, ready := false, visible := false)
    case SawEcho(k, v) => m.(echoes := if k == m.echoes && k < |m.addrs| && v == m.addrs[k] then k + 1 else 0)
    case SawStatus(st) =>
      m.(acked := m.acked || (m.stopSent && Stopped(st, version)),
         ready := m.ready || ReadyToStart(st, version),
         visible := m.visible || (m.master && MasterVisible(st, version)))
    case MasterOn => m.(master := true)
    case MasterOff => m.(master := false, visible := false)
    case WroteStart(_) =>
      m.(starts := m.starts + 1, echoes := 0, ready := false, visible := false, violated := m.violated ||
           !(m.ready && m.visible && m.master && (m.verify ==> m.echoes == buffers)))
  }

  const NOTHING_SEEN := Monitor(false, false, false, [], 0, false, false, false, 0, false)

  // ---------------------------------------------------------------- what an unviolated log says

  function Watch(es: seq<Event>, version: byte, buffers: nat): Monitor {
    if es == [] then NOTHING_SEEN else Observe(Watch(es[..|es| - 1], version, buffers), es[|es| - 1], version, buffers)
  }

  predicate WritesRegister(e: Event) { e.WroteArm? || e.WroteStop? || e.WroteStart? || e.WroteOther? }

  /** The register writes of a log, in order. */
  function WritesOf(es: seq<Event>): seq<Event> {
    if es == [] then []
    else
      var before := WritesOf(es[..|es| - 1]);
      if WritesRegister(es[|es| - 1]) then before + [es[|es| - 1]] else before
  }

  /** Between `j` and the end neither a new call nor a register write. */
  predicate Undisturbed(es: seq<Event>, j: nat) {
    forall i | j < i < |es| :: !WritesRegister(es[i]) && !es[i].CallBegins?
  }

  predicate SameCall(es: seq<Event>, j: nat) { forall i | j < i < |es| :: !es[i].CallBegins? }

  predicate StopSeenAt(es: seq<Event>, s: nat, a: nat, version: byte) {
    s < a < |es| && es[s].WroteStop? && es[a].SawStatus? && Stopped(es[a].status, version) && SameCall(es, s)
  }

  /** In this call a STOP was written and, later, seen acknowledged. */
  ghost predicate StopAcknowledged(es: seq<Event>, version: byte) { exists s, a :: StopSeenAt(es, s, a, version) }

  predicate ReadySeenAt(es: seq<Event>, j: nat, version: byte) {
    j < |es| && es[j].SawStatus? && ReadyToStart(es[j].status, version) && Undisturbed(es, j)
  }

  ghost predicate SawReady(es: seq<Event>, version: byte) { exists j :: ReadySeenAt(es, j, version) }

  /** Bus Master was on at `j`, as the last event about it before or at `j` says. */
  predicate MasterIsOn(es: seq<Event>) {
    es != [] && (es[|es| - 1] == MasterOn || (es[|es| - 1] != MasterOff && MasterIsOn(es[..|es| - 1])))
  }

  predicate MasterSeenAt(es: seq<Event>, j: nat, version: byte) {
    && j < |es| && es[j].SawStatus? && MasterVisible(es[j].status, version) && MasterIsOn(es[..j])
    && Undisturbed(es, j) && forall i | j < i < |es| :: es[i] != MasterOff
  }

  ghost predicate SawMaster(es: seq<Event>, version: byte) { exists j :: MasterSeenAt(es, j, version) }

  /** The addresses that the current call expects. */
  function Expected(es: seq<Event>): seq<u32> {
    if es == [] then [] else if es[|es| - 1].CallBegins? then es[|es| - 1].addrs else Expected(es[..|es| - 1])
  }

  predicate EchoesAt(es: seq<Event>, at: seq<nat>) {
    var addrs := Expected(es);
    && |at| <= |addrs|
    && forall k | 0 <= k < |at| :: at[k] < |es| && es[at[k]] == SawEcho(k, addrs[k]) && Undisturbed(es, at[k])
  }

  /** The echoes 0 to `n` - 1 read as expected, each after the last write. */
  ghost predicate SawEchoes(es: seq<Event>, n: nat) { exists at: seq<nat> :: |at| == n && EchoesAt(es, at) }

  /** The read-back setting of the current call. */
  predicate ReadBack(es: seq<Event>) {
    es != [] && if es[|es| - 1].CallBegins? then es[|es| - 1].verify else ReadBack(es[..|es| - 1])
  }

  predicate StopAt(es: seq<Event>, s: nat) { s < |es| && es[s].WroteStop? && SameCall(es, s) }

  ghost predicate SentStop(es: seq<Event>) { exists s :: StopAt(es, s) }

  // How one more event extends each of these facts.

  lemma CallStep(es: seq<Event>, e: Event)
    ensures MasterIsOn(es + [e]) <==> e == MasterOn || (e != MasterOff && MasterIsOn(es))
    ensures ReadBack(es + [e]) <==> if e.CallBegins? then e.verify else ReadBack(es)
    ensures Expected(es + [e]) == if e.CallBegins? then e.addrs else Expected(es)
  {
    assert (es + [e])[..|es|] == es;
  }

  lemma StopStep(es: seq<Event>, e: Event, version: byte)
    ensures e.WroteStop? ==> SentStop(es + [e])
    ensures SentStop(es) && !e.CallBegins? ==> SentStop(es + [e])
    ensures StopAcknowledged(es, version) && !e.CallBegins? ==> StopAcknowledged(es + [e], version)
    ensures SentStop(es) && e.SawStatus? && Stopped(e.status, version) ==> StopAcknowledged(es + [e], version)
  {
    hide Stopped;
    var more := es + [e];
    if e.WroteStop? {
      assert StopAt(more, |es|);
    }
    if SentStop(es) && !e.CallBegins? {
      var s: nat :| StopAt(es, s);
      assert StopAt(more, s);
      if e.SawStatus? && Stopped(e.status, version) {
        assert StopSeenAt(more, s, |es|, version);
      }
    }
    if StopAcknowledged(es, version) && !e.CallBegins? {
      var s: nat, a: nat :| StopSeenAt(es, s, a, version);
      assert StopSeenAt(more, s, a, version);
    }
  }

  predicate Harmless(e: Event) { !WritesRegister(e) && !e.CallBegins? }

  lemma ReadyStep(es: seq<Event>, e: Event, version: byte)
    ensures SawReady(es, version) && Harmless(e) ==> SawReady(es + [e], version)
    ensures e.SawStatus? && ReadyToStart(e.status, version) ==> SawReady(es + [e], version)
  {
    hide ReadyToStart;
    var more := es + [e];
    if SawReady(es, version) && Harmless(e) {
      var j: nat :| ReadySeenAt(es, j, version);
      assert ReadySeenAt(more, j, version);
    }
    if e.SawStatus? && ReadyToStart(e.status, version) {
      assert ReadySeenAt(more, |es|, version);
    }
  }

  lemma MasterStep(es: seq<Event>, e: Event, version: byte)
    ensures SawMaster(es, version) && Harmless(e) && e != MasterOff ==> SawMaster(es + [e], version)
    ensures e.SawStatus? && MasterVisible(e.status, version) && MasterIsOn(es) ==> SawMaster(es + [e], version)
  {
    hide MasterVisible, MasterIsOn;
    var more := es + [e];
    if SawMaster(es, version) && Harmless(e) && e != MasterOff {
      var j: nat :| MasterSeenAt(es, j, version);
      assert more[..j] == es[..j];
      assert MasterSeenAt(more, j, version);
    }
    if e.SawStatus? && MasterVisible(e.status, version) && MasterIsOn(es) {
      assert more[..|es|] == es;
      assert MasterSeenAt(more, |es|, version);
    }
  }

  lemma EchoStep(es: seq<Event>, e: Event, n: nat)
    ensures SawEchoes(es, 0)
    ensures SawEchoes(es, n) && Harmless(e) ==> SawEchoes(es + [e], n)
    ensures SawEchoes(es, n) && n < |Expected(es)| && e == SawEcho(n, Expected(es)[n]) ==> SawEchoes(es + [e], n + 1)
  {
    CallStep(es, e);
    hide Expected;
    assert EchoesAt(es, []);
    if SawEchoes(es, n) && Harmless(e) {
      var at: seq<nat> :| |at| == n && EchoesAt(es, at);
      assert EchoesAt(es + [e], at);
      if n < |Expected(es)| && e == SawEcho(n, Expected(es)[n]) {
        assert EchoesAt(es + [e], at + [|es|]);
      }
    }
  }

  /** The monitor reports nothing that the log does not contain. */
  ghost predicate Tells(es: seq<Event>, m: Monitor, version: byte) {
    && (m.verify <==> ReadBack(es)) && m.addrs == Expected(es) && (m.master <==> MasterIsOn(es))
    && (m.stopSent ==> SentStop(es)) && (m.acked ==> StopAcknowledged(es, version))
    && (m.ready ==> SawReady(es, version)) && (m.visible ==> SawMaster(es, version))
    && SawEchoes(es, m.echoes)
  }

  lemma TellsStep(es: seq<Event>, e: Event, m: Monitor, version: byte, buffers: nat)
    requires Tells(es, m, version)
    ensures Tells(es + [e], Observe(m, e, version, buffers), version)
  {
    hide Stopped, ReadyToStart, MasterVisible, MasterIsOn, ReadBack, Expected;
    hide SentStop, StopAcknowledged, SawReady, SawMaster, SawEchoes;
    CallStep(es, e);
    StopStep(es, e, version);
    ReadyStep(es, e, version);
    MasterStep(es, e, version);
    EchoStep(es, e, m.echoes);
    EchoStep(es + [e], e, 0);
  }

  lemma {:induction false} WatchTells(es: seq<Event>, version: byte, buffers: nat)
    ensures Tells(es, Watch(es, version, buffers), version)
  {
    hide Observe, MasterIsOn, ReadBack, Expected;
    if es == [] {
      EchoStep(es, MasterOn, 0);
      NothingOn();
    } else {
      var n := |es| - 1;
      WatchTells(es[..n], version, buffers);
      hide Tells;
      TellsStep(es[..n], es[n], Watch(es[..n], version, buffers), version, buffers);
      assert es[..n] + [es[n]] == es;
    }
  }

  lemma NothingOn()
    ensures !MasterIsOn([]) && !ReadBack([]) && Expected([]) == []
  {
  }

  lemma {:induction false} ViolationsStick(es: seq<Event>, k: nat, version: byte, buffers: nat)
    requires k <= |es| && !Watch(es, version, buffers).violated
    ensures !Watch(es[..k], version, buffers).violated
  {
    hide Stopped, ReadyToStart, MasterVisible;
    if k == |es| {
      assert es[..k] == es;
    } else {
      var before := es[..|es| - 1];
      Sticky(Watch(before, version, buffers), es[|es| - 1], version, buffers);
      hide Observe;
      ViolationsStick(before, k, version, buffers);
      assert before[..k] == es[..k];
    }
  }

  lemma Sticky(m: Monitor, e: Event, version: byte, buffers: nat)
    ensures m.violated ==> Observe(m, e, version, buffers).violated
  {
    hide Stopped, ReadyToStart, MasterVisible;
  }

  /** In an unviolated log every ARM comes after an acknowledged STOP of its own call, and every
      START after the full set of checks of its own call, with no other write in between. */
  lemma LogIsDisciplined(es: seq<Event>, k: nat, version: byte, buffers: nat)
    requires k < |es| && !Watch(es, version, buffers).violated
    ensures es[k].WroteArm? ==> StopAcknowledged(es[..k], version)
    ensures es[k].WroteStart? ==>
              && SawReady(es[..k], version) && SawMaster(es[..k], version) && MasterIsOn(es[..k])
              && (ReadBack(es[..k]) ==> SawEchoes(es[..k], buffers))
  {
    var before := es[..k];
    ViolationsStick(es, k + 1, version, buffers);
    assert es[..k + 1][..k] == before;
    WatchTells(before, version, buffers);
    hide Stopped, ReadyToStart, MasterVisible, MasterIsOn, ReadBack, Expected;
    hide SentStop, StopAcknowledged, SawReady, SawMaster, SawEchoes;
  }

  /** Only status words were seen from `m` to `n`. */
  predicate OnlySaw(m: Monitor, n: Monitor) {
    && n.violated == m.violated && n.master == m.master && n.starts == m.starts
    && n.verify == m.verify && n.addrs == m.addrs && n.echoes == m.echoes && n.stopSent == m.stopSent
    && (m.acked ==> n.acked) && (m.ready ==> n.ready) && (m.visible ==> n.visible)
  }

  /** `n` is of the same call as `m`. */
  predicate SameCallAs(m: Monitor, n: Monitor) { n.verify == m.verify && n.addrs == m.addrs }

  /** No START was written from `m` to `n`. */
  predicate NoNewStart(m: Monitor, n: Monitor) { n.starts == m.starts }

  /** The polls of one wait, as the log has them. */
  function Saws(seen: seq<u32>): seq<Event> { seq(|seen|, (i: nat) requires i < |seen| => SawStatus(seen[i])) }

  lemma NoneSeen(q: Poll, es: seq<Event>)
    ensures es == es + Saws([]) && Unsettled(q, [])
  {
  }

  lemma OneMoreSeen(q: Poll, es: seq<Event>, seen: seq<u32>, status: u32)
    requires Unsettled(q, seen)
    ensures es + Saws(seen) + [SawStatus(status)] == es + Saws(seen + [status])
    ensures PollEnds(q, seen + [status], Settles(q, status))
    ensures Settles(q, status) == ETIMEDOUT ==> Unsettled(q, seen + [status])
  {
    OneMorePoll(q, seen, status);
    hide Settles, Unsettled;
  }
}
