/** The four-buffer FPGA as far as protocol 0x0B shows it to the host. Its RTL is not part of this
    model: everything the driver does not rely on is left to the choices of `Drift` and `Effect`. */
module RingFpga {
  import opened Words
  import opened HostMemory
  import opened DriverLog
  import DmaEngine

  const VERSION: byte := 0x0B
  const BUFFERS: nat := 4

  type Index = n: nat | n < 4
  /** The length register holds no other value than the one length the protocol knows. */
  type FrameLen = n: u32 | n == 0 || n == FRAME_SIZE
  type Slots = s: seq<u32> | |s| == 4 witness [0, 0, 0, 0]

  /** `running`: a START was taken and its frame has neither finished nor been stopped. */
  datatype Fpga = Fpga(
    running: bool, next: Index, slots: Slots, active: u32, activeLen: FrameLen, bytesSent: u32,
    busMaster: bool, mem: Mem)

  /** Memory is written only while running with Bus Master on, and only in the active frame. */
  predicate Writes(f: Fpga, x: int) {
    f.running && f.busMaster && f.active <= x < f.active + FRAME_SIZE
  }

  /** The choices of any stretch of time without register writes. */
  datatype Drift = Drift(ends: bool, next: Index, sent: u32, lost: bool, data: Mem)

  function Drifted(f: Fpga, d: Drift): Fpga {
    var mem := if f.running && f.busMaster then (x: int) => if Writes(f, x) then d.data(x) else f.mem(x) else f.mem;
    if d.lost then Fpga(false, 0, [0, 0, 0, 0], 0, 0, 0, f.busMaster, mem)
    else if f.running then f.(running := !d.ends, next := d.next, bytesSent := d.sent, mem := mem)
    else f
  }

  /** The choices of one register write. */
  datatype Effect = Effect(taken: bool, slots: Slots, next: Index)

  /** Only START begins a transfer, and it takes the address in the next slot. */
  function AfterWrite(f: Fpga, reg: nat, e: Effect): Fpga {
    if reg == DmaEngine.START_REG then
      if e.taken && f.busMaster && !f.running then
        f.(running := true, active := f.slots[f.next], activeLen := FRAME_SIZE, bytesSent := 0)
      else f
    else if f.running then f
    else f.(slots := e.slots, next := e.next)
  }

  function NextBuffer(status: u32): Index { status / 0x1_0000 % 4 }

  /** A status word the FPGA may show: DONE and STOP_ACK are never shown over a transfer. */
  predicate Shows(f: Fpga, w: u32) {
    && (w == 0 || (Version(w) == VERSION && NextBuffer(w) == f.next))
    && (f.running ==> !Bit(w, FRAME_DONE) && !Bit(w, STOP_ACK))
  }

  lemma ZeroIsShown(f: Fpga)
    ensures Shows(f, 0)
  {
    assert !Bit(0, 0) && !Bit(0, 1) && !Bit(0, 2) && !Bit(0, 3);
  }

  function RegValue(f: Fpga, reg: nat, other: u32): u32 {
    if reg == DmaEngine.ACTIVE_ADDR_REG then f.active
    else if reg == DmaEngine.ACTIVE_LEN_REG then f.activeLen
    else if reg == DmaEngine.BYTES_SENT_REG then f.bytesSent
    else if reg == DmaEngine.ADDR_ECHO0_REG then f.slots[0]
    else if reg == DmaEngine.ADDR_ECHO1_REG then f.slots[1]
    else if reg == DmaEngine.ADDR_ECHO2_REG then f.slots[2]
    else if reg == DmaEngine.ADDR_ECHO3_REG then f.slots[3]
    else other
  }

  /** A read of `reg` may yield `v`: the register (for STATUS some word `w` the FPGA may show), or
      all ones when no completion comes. */
  predicate Reads(f: Fpga, reg: nat, w: u32, v: u32) {
    && (reg == DmaEngine.STATUS_REG ==> Shows(f, w))
    && (v == RegValue(f, reg, w) || v == 0xFFFF_FFFF)
  }

  // ---------------------------------------------------------------- a transfer under way

  ghost predicate OnlyFrameChanged(m: Mem, base: Mem, a: int) {
    forall x :: !(a <= x < a + FRAME_SIZE) ==> m(x) == base(x)
  }

  ghost predicate Unchanged(m: Mem, base: Mem) { forall x :: m(x) == base(x) }

  /** Since START was written, when memory was `base`, only the frame at `target` has been touched.
      The active registers show `target`, or are cleared, or START was never taken. */
  ghost predicate Flying(f: Fpga, base: Mem, target: u32) {
    && OnlyFrameChanged(f.mem, base, target)
    && (f.running ==> f.active == target)
    && (f.active == target || f.activeLen == 0 || (!f.running && Unchanged(f.mem, base)))
  }

  lemma FlyingDrift(f: Fpga, d: Drift, base: Mem, target: u32)
    requires Flying(f, base, target)
    ensures Flying(Drifted(f, d), base, target)
  {
  }

  lemma RestDrift(f: Fpga, d: Drift)
    requires !f.running
    ensures !Drifted(f, d).running && Drifted(f, d).mem == f.mem
  {
  }

  /** START on an FPGA at rest. */
  lemma FlyingStart(f: Fpga, e: Effect)
    requires !f.running
    ensures Flying(AfterWrite(f, DmaEngine.START_REG, e), f.mem, f.slots[f.next])
  {
  }

  /** An active address and a non-zero active length settle what has changed since START. */
  lemma FrameLanded(f: Fpga, base: Mem, target: u32)
    requires Flying(f, base, target) && f.activeLen != 0
    ensures OnlyFrameChanged(f.mem, base, f.active)
  {
  }
}
