/** From the FIFO to host memory: when a frame is done, memory holds the FIFO's bytes in order. */
module DmaDelivery {
  import opened Words
  import opened HostMemory
  import opened Runs
  import opened DmaEngine
  import opened DmaInvariant
  import opened DmaHistory
  import opened DmaTheorems
  import opened DmaFifo
  import opened Board

  /** Byte `j` of four FIFO words, least significant byte of the first dword first. */
  function FifoByte(words: seq<Quad>, j: nat): byte
    requires j < 16 * |words|
  {
    ByteOf(Dword(words[j / 16], j % 16 / 4), j % 4)
  }

  lemma DwordSwabbed(q: Quad, d: nat)
    requires d < 4
    ensures Swab32(Dword(SwabQuad(q), d)) == Dword(q, d)
  {
    SwabInvolution(q.q0);
    SwabInvolution(q.q1);
    SwabInvolution(q.q2);
    SwabInvolution(q.q3);
    hide Swab32;
  }

  lemma TlpCarriesByte(t: Tlp, addr: int, words: seq<Quad>, n: nat, j: nat)
    requires TlpAt(t, addr) && CarriesWords(t, words, n) && j < TLP_BYTES
    ensures n + j / 16 < |words| && TlpByte(t, j) == ByteOf(Dword(words[n + j / 16], j % 16 / 4), j % 4)
  {
    var m := 1 + j / 16;
    assert PayloadIs(t.beats[m], words, n + m - 1);
    DwordSwabbed(words[n + m - 1], j % 16 / 4);
    hide Swab32, SwabQuad, Dword, ByteOf;
  }

  /** Byte `j` that TLP `k` of a frame writes is byte 64k + j of the words read for that frame: what
      goes into the FIFO arrives in memory in the same byte order. */
  lemma DeliveredInFifoOrder(word: Quad, xs: seq<StreamIn>, k: nat, j: nat)
    requires Always(NextStream, StreamStart(word), xs, FedEdge)
    ensures var f := RunFrom(NextStream, StreamStart(word), xs);
            (f.c.s.xfer.rc || f.c.s.host.done) && k < |f.c.h.frame| && j < TLP_BYTES ==>
              64 * k + j < 16 * |f.popped| && TlpByte(f.c.h.frame[k], j) == FifoByte(f.popped, 64 * k + j)
  {
    StreamRun(word, xs);
    var f := RunFrom(NextStream, StreamStart(word), xs);
    if (f.c.s.xfer.rc || f.c.s.host.done) && k < |f.c.h.frame| && j < TLP_BYTES {
      FrameByte(f, k, j);
    }
  }

  lemma FrameByte(f: Stream, k: nat, j: nat)
    requires StreamOk(f) && (f.c.s.xfer.rc || f.c.s.host.done) && k < |f.c.h.frame| && j < TLP_BYTES
    ensures 64 * k + j < 16 * |f.popped| && TlpByte(f.c.h.frame[k], j) == FifoByte(f.popped, 64 * k + j)
  {
    var t := f.c.h.frame[k];
    assert TlpAt(t, f.c.s.host.activeAddr + 64 * k);
    assert CarriesWords(t, f.popped, 4 * k);
    hide StreamOk;
    TlpCarriesByte(t, f.c.s.host.activeAddr + 64 * k, f.popped, 4 * k, j);
    Position64(k, j);
  }

  lemma Div16(a: nat, r: nat)
    requires r < 16
    ensures (16 * a + r) / 16 == a && (16 * a + r) % 16 == r
  {
  }

  lemma Mod4(a: nat, r: nat)
    requires r < 4
    ensures (4 * a + r) % 4 == r
  {
  }

  lemma Position64(k: nat, j: nat)
    requires j < 64
    ensures (64 * k + j) / 16 == 4 * k + j / 16 && (64 * k + j) % 16 == j % 16 && (64 * k + j) % 4 == j % 4
  {
    Div16(4 * k + j / 16, j % 16);
    Mod4(16 * k + j / 4, j % 4);
  }

  // ---------------------------------------------------------------- memory

  /** The board with the FIFO in front of its engine. */
  datatype FedBoard = FedBoard(b: Board, f: Stream)

  /** One edge, at which the host may also give its memory any new contents. */
  datatype FedIn = FedIn(x: StreamIn, fill: bool, contents: Mem)

  function NextFed(d: FedBoard, y: FedIn): FedBoard {
    var b := NextBoard(d.b, Pins(d.f, y.x));
    FedBoard(if y.fill then b.(mem := y.contents, base := y.contents, sent := []) else b, NextStream(d.f, y.x))
  }

  /** The host keeps off memory while a frame is under way or done. */
  predicate FedBoardEdge(d: FedBoard, y: FedIn) {
    FedEdge(d.f, y.x) && (y.fill ==> !d.f.c.s.xfer.rc && !d.f.c.s.host.done)
  }

  /** The frame's TLPs are the last ones sent. */
  predicate EndsWith(sent: seq<Tlp>, frame: seq<Tlp>) {
    |frame| <= |sent| && sent[|sent| - |frame|..] == frame
  }

  ghost predicate FedOk(d: FedBoard) {
    && StreamOk(d.f) && d.b.c == d.f.c && d.b.mem == WriteAll(d.b.base, d.b.sent)
    && (d.f.c.s.xfer.rc || d.f.c.s.host.done ==> EndsWith(d.b.sent, d.f.c.h.frame))
  }

  lemma EndsStep(s: Regs, h: History, sent: seq<Tlp>, i: In, t: Regs, g: History)
    requires Machines(s) && HostFlags(s) && t.xfer == NextXfer(s, i) && t.host == NextHost(s, i)
    requires g == NextHistory(s, h, i)
    requires s.xfer.rc || s.host.done ==> EndsWith(sent, h.frame)
    ensures var sent' := if MwrTlast(s, i) then sent + [FinishedTlp(s, h, i)] else sent;
            t.xfer.rc || t.host.done ==> EndsWith(sent', g.frame)
  {
    hide FinishedTlp, EndsWith;
    if RcRises(s, i) {
      EndsEmpty(sent);
    } else if MwrTlast(s, i) {
      EndsSnoc(sent, h.frame, FinishedTlp(s, h, i));
    }
  }

  lemma EndsEmpty(sent: seq<Tlp>)
    ensures EndsWith(sent, [])
  {
  }

  lemma EndsSnoc(sent: seq<Tlp>, frame: seq<Tlp>, t: Tlp)
    ensures EndsWith(sent, frame) ==> EndsWith(sent + [t], frame + [t])
  {
  }

  /** A fill between frames. */
  lemma FillStep(s: Regs, h: History, i: In, t: Regs, g: History)
    requires Machines(s) && HostFlags(s) && t.xfer == NextXfer(s, i) && t.host == NextHost(s, i)
    requires g == NextHistory(s, h, i)
    requires !s.xfer.rc && !s.host.done
    ensures t.xfer.rc || t.host.done ==> EndsWith([], g.frame)
  {
  }

  lemma FedStep(d: FedBoard, y: FedIn)
    requires FedOk(d) && FedBoardEdge(d, y)
    ensures FedOk(NextFed(d, y))
  {
    var i, e := Pins(d.f, y.x), NextFed(d, y);
    var (s, h, t, g) := (d.f.c.s, d.f.c.h, e.f.c.s, e.f.c.h);
    hide Step, NextHistory, StreamOk;
    StreamStep(d.f, y.x);
    MemoryStep(d.b, i);
    PartsOfStep(d.f, i);
    if y.fill {
      FillStep(s, h, i, t, g);
    } else {
      EndsStep(s, h, d.b.sent, i, t, g);
    }
  }

  lemma PartsOfStep(f: Stream, i: In)
    requires StreamOk(f)
    ensures Machines(f.c.s) && HostFlags(f.c.s)
    ensures Next(f.c, i).s.xfer == NextXfer(f.c.s, i) && Next(f.c, i).s.host == NextHost(f.c.s, i)
  {
  }

  lemma {:induction false} WriteConcat(m: Mem, a: seq<Tlp>, b: seq<Tlp>)
    ensures WriteAll(m, a + b) == WriteAll(WriteAll(m, a), b)
  {
    if b == [] {
      assert a + b == a;
    } else {
      var n := |b| - 1;
      assert (a + b)[..|a + b| - 1] == a + b[..n];
      WriteConcat(m, a, b[..n]);
    }
  }

  /** `mem` holds the words at `addr`, and elsewhere what `before` holds. */
  ghost predicate FrameInMemory(mem: Mem, before: Mem, addr: u32, words: seq<Quad>) {
    && 16 * |words| >= FRAME_BYTES
    && (forall j: nat :: j < FRAME_BYTES ==> mem(addr + j) == FifoByte(words, j))
    && (forall x :: !(addr <= x < addr + FRAME_BYTES) ==> mem(x) == before(x))
  }

  /** Memory as it was when the frame's first TLP was sent. */
  function BeforeFrame(b: Board): Mem
    requires |b.c.h.frame| <= |b.sent|
  {
    WriteAll(b.base, b.sent[..|b.sent| - |b.c.h.frame|])
  }

  /** Byte `j` of the range that TLPs tile. */
  lemma TiledByte(m: Mem, ts: seq<Tlp>, base: u32, j: nat)
    requires TilesFrom(ts, base) && j < 64 * |ts|
    ensures WriteAll(m, ts)(base + j) == TlpByte(ts[j / 64], j % 64)
  {
    hide TilesFrom, WriteAll, TlpByte;
    TiledContents(m, ts, base, base + j);
    assert base + j - base == j;
  }

  lemma FrameByteAt(f: Stream, j: nat)
    requires StreamOk(f) && f.c.s.host.done && |f.c.h.frame| == FRAME_TLPS && j < FRAME_BYTES
    ensures j < 16 * |f.popped| && TlpByte(f.c.h.frame[j / 64], j % 64) == FifoByte(f.popped, j)
  {
    hide TlpByte, FifoByte, StreamOk;
    Split64(j);
    FrameByte(f, j / 64, j % 64);
  }

  lemma ByteInMemory(f: Stream, before: Mem, j: nat)
    requires StreamOk(f) && f.c.s.host.done && j < FRAME_BYTES
    ensures j < 16 * |f.popped|
    ensures WriteAll(before, f.c.h.frame)(f.c.s.host.activeAddr + j) == FifoByte(f.popped, j)
  {
    WholeFrame(f);
    hide TilesFrom, WriteAll, TlpByte, FifoByte, StreamOk;
    TiledByte(before, f.c.h.frame, f.c.s.host.activeAddr, j);
    FrameByteAt(f, j);
  }

  lemma WholeFrame(f: Stream)
    requires StreamOk(f) && f.c.s.host.done
    ensures |f.c.h.frame| == FRAME_TLPS && TilesFrom(f.c.h.frame, f.c.s.host.activeAddr)
  {
  }

  lemma TiledInMemory(f: Stream, before: Mem)
    requires StreamOk(f) && f.c.s.host.done
    ensures FrameInMemory(WriteAll(before, f.c.h.frame), before, f.c.s.host.activeAddr, f.popped)
  {
    var (frame, addr) := (f.c.h.frame, f.c.s.host.activeAddr);
    WholeFrame(f);
    ByteInMemory(f, before, FRAME_BYTES - 1);
    hide TilesFrom, WriteAll, TlpByte, FifoByte, StreamOk;
    forall j: nat | j < FRAME_BYTES
      ensures j < 16 * |f.popped| && WriteAll(before, frame)(addr + j) == FifoByte(f.popped, j)
    {
      ByteInMemory(f, before, j);
    }
    forall x | !(addr <= x < addr + FRAME_BYTES)
      ensures WriteAll(before, frame)(x) == before(x)
    {
      TiledContents(before, frame, addr, x);
    }
  }

  lemma DoneInMemory(d: FedBoard)
    requires FedOk(d) && d.f.c.s.host.done
    ensures |d.b.c.h.frame| <= |d.b.sent|
    ensures FrameInMemory(d.b.mem, BeforeFrame(d.b), d.f.c.s.host.activeAddr, d.f.popped)
  {
    var (frame, sent) := (d.f.c.h.frame, d.b.sent);
    hide StreamOk, WriteAll, FrameInMemory;
    assert sent == sent[..|sent| - |frame|] + frame;
    WriteConcat(d.b.base, sent[..|sent| - |frame|], frame);
    TiledInMemory(d.f, BeforeFrame(d.b));
  }

  function FedStart(word: Quad, mem: Mem): FedBoard {
    FedBoard(Board(START_CONFIG, true, mem, mem, []), StreamStart(word))
  }

  /** Over every run from reset with TREADY high when needed, whatever the host writes to memory
      between frames: when the engine shows DONE, memory at the active address holds the bytes of
      the frame's FIFO words in order, and no other byte has changed since its first TLP. */
  lemma DoneMeansFifoInMemory(word: Quad, mem: Mem, ys: seq<FedIn>)
    requires Always(NextFed, FedStart(word, mem), ys, FedBoardEdge)
    ensures var d := RunFrom(NextFed, FedStart(word, mem), ys);
            d.f.c.s.host.done ==>
              && |d.b.c.h.frame| <= |d.b.sent|
              && FrameInMemory(d.b.mem, BeforeFrame(d.b), d.f.c.s.host.activeAddr, d.f.popped)
  {
    StreamStarts(word);
    forall d, y | FedOk(d) && FedBoardEdge(d, y) ensures FedOk(NextFed(d, y)) {
      FedStep(d, y);
    }
    assert FedOk(FedStart(word, mem));
    hide FrameInMemory, NextFed, FedBoardEdge, FedStart, StreamOk;
    Keeps(NextFed, (d: FedBoard) => FedOk(d), FedBoardEdge, FedStart(word, mem), ys);
    var d := RunFrom(NextFed, FedStart(word, mem), ys);
    if d.f.c.s.host.done {
      DoneInMemory(d);
    }
  }

  /** What the driver waits for: with its transfer in flight, DONE means that memory, filled before
      START, has received exactly the FIFO words of the frame. */
  lemma FlightDeliversFifo(b: Board, f: Stream)
    requires BoardOk(b) && Flight(b) && StreamOk(f) && f.c == b.c && b.c.s.host.done
    ensures FrameInMemory(b.mem, b.base, b.c.s.host.activeAddr, f.popped)
  {
    SentIsFrame(b);
    hide Good, StreamOk, Flight, WriteAll, FrameInMemory;
    TiledInMemory(f, b.base);
  }

  lemma SentIsFrame(b: Board)
    requires BoardOk(b) && Flight(b) && b.c.s.host.done
    ensures b.sent == b.c.h.frame
  {
  }
}
