/** The engine gets on: how many undisturbed edges a TLP and a frame take, and that a frame is
    finished, from reset and for every address, when the FIFO is kept supplied. */
module DmaProgress {
  import opened Words
  import opened Runs
  import opened DmaEngine
  import opened DmaInvariant
  import opened DmaHistory
  import opened DmaTheorems
  import opened DmaFifo
  import opened DmaScenario
  import opened FifoScenario

  /** A frame is under way and neither a STOP nor a completion is pending. */
  predicate Moving(s: Regs) {
    && s.xfer.rc && s.xfer.fram && !s.host.stopPending && !s.host.stopFlag
    && s.cpl.state == CplIdle && !s.cpl.pending
  }

  /** Reset released, link and DMA enable up, and neither a read nor a command that preempts a TLAST
      is being decoded. */
  predicate Steady(s: Regs, i: In) {
    i.rstn && i.linkUp && i.dmaEnable && !IsRead(s) && !Preempted(s)
  }

  /** And TREADY is high, and the FIFO has the words a waiting TLP asks for. */
  predicate Smooth(s: Regs, i: In) {
    && Steady(s, i) && i.tready
    && (s.mwr == MwrIdle && !s.xfer.dmaStart ==> i.waterLevel >= if s.xfer.cnt == 0 then 5 else 4)
  }

  predicate SteadyEdge(c: Config, i: In) { Steady(c.s, i) }

  predicate SmoothEdge(c: Config, i: In) { Smooth(c.s, i) }

  /** Smooth edges until the TLAST of the TLP that is next or under way is accepted. */
  function ToGo(s: Regs): int {
    match s.mwr
    case MwrIdle => if s.xfer.dmaStart then 7 else 8
    case MwrHeader => 6
    case MwrData => 5 - s.out.lenCnt
  }

  /** Smooth edges until DONE. */
  function Left(s: Regs): int { ToGo(s) + 8 * (FRAME_TLPS - 1 - s.xfer.cnt) }

  // ---------------------------------------------------------------- one edge

  predicate PartsOk(s: Regs) {
    Machines(s) && HostFlags(s) && StopFlags(s) && Position(s) && HeaderOutput(s) && DataOutput(s)
  }

  /** The TLP goes on: nearer its end, or, if the edge is smooth, nearer by one. */
  lemma Nearer(s: Regs, i: In, t: Regs)
    requires PartsOk(s) && Moving(s) && Steady(s, i) && EngineEdge(s, i, t) && !MwrTlast(s, i)
    ensures Moving(t) && t.xfer.cnt == s.xfer.cnt && 1 <= ToGo(t) <= ToGo(s)
    ensures t.host.activeAddr == s.host.activeAddr
    ensures Smooth(s, i) ==> ToGo(t) == ToGo(s) - 1
  {
    hide Swab32, RangeValid, ActiveValid, TlpLimit;
  }

  lemma TlastAtOne(s: Regs, i: In)
    requires PartsOk(s) && Moving(s) && Steady(s, i)
    ensures MwrTlast(s, i) ==> ToGo(s) == 1
    ensures Smooth(s, i) && ToGo(s) == 1 ==> MwrTlast(s, i)
  {
  }

  /** Its TLAST is accepted: the count goes up, or the frame is done. */
  lemma TlpEnds(s: Regs, i: In, t: Regs)
    requires PartsOk(s) && Decoder(s) && IdleOutput(s) && Moving(s) && Steady(s, i) && EngineEdge(s, i, t)
    requires MwrTlast(s, i)
    ensures if s.xfer.cnt + 1 < FRAME_TLPS then Moving(t) && t.xfer.cnt == s.xfer.cnt + 1 && ToGo(t) == 8
            else t.host.done
    ensures t.host.activeAddr == s.host.activeAddr
  {
    PreemptedExactly(s, i);
    LimitIsFrame(s);
    hide Swab32, RangeValid, Preempted;
  }

  lemma MovingIsLegal(s: Regs, i: In)
    requires Moving(s) && Steady(s, i)
    ensures Legal(s, i)
  {
  }

  /** A frame under way, in good order. */
  predicate Going(c: Config) { Good(c) && Moving(c.s) }

  predicate Finished(c: Config) { Good(c) && c.s.host.done }

  lemma GoingStep(c: Config, i: In)
    requires Going(c) && SteadyEdge(c, i)
    ensures var (d, left) := (Next(c, i), Left(c.s));
            && LegalEdge(c, i) && d.s.host.activeAddr == c.s.host.activeAddr
            && (Finished(d) || (Going(d) && 1 <= Left(d.s) <= left))
            && (SmoothEdge(c, i) ==> if left == 1 then Finished(d) else Going(d) && Left(d.s) == left - 1)
            && (SmoothEdge(c, i) && ToGo(c.s) == 1 ==>
                  if c.s.xfer.cnt == FRAME_TLPS - 1 then Finished(d) else Going(d) && d.s.xfer.cnt == c.s.xfer.cnt + 1)
            && (SmoothEdge(c, i) && ToGo(c.s) > 1 ==>
                  Going(d) && d.s.xfer.cnt == c.s.xfer.cnt && ToGo(d.s) == ToGo(c.s) - 1)
  {
    var (s, t) := (c.s, Next(c, i).s);
    assert EngineEdge(s, i, t);
    hide Step, NextHistory, NextHost, NextXfer, NextCpl, NextOut, NextMwr, MwrTlast, Smooth, Steady, ToGo, EngineEdge;
    hide HistoryOk, Legal;
    MovingIsLegal(s, i);
    GoodStep(c, i);
    CountInFrame(s);
    TlastAtOne(s, i);
    if MwrTlast(s, i) {
      TlpEnds(s, i, t);
    } else {
      Nearer(s, i, t);
    }
  }

  lemma CountInFrame(s: Regs)
    requires Position(s) && HeaderOutput(s) && DataOutput(s) && Moving(s)
    ensures s.xfer.cnt < FRAME_TLPS && 1 <= ToGo(s) <= 8
  {
  }

  // ---------------------------------------------------------------- whole runs

  lemma OneEdge(c: Config, ins: seq<In>)
    requires |ins| == 1
    ensures After(c, ins) == Next(c, ins[0])
  {
    assert ins[1..] == [];
    assert After(Next(c, ins[0]), []) == Next(c, ins[0]);
  }

  /** Every run of smooth edges from within a frame shows DONE after exactly `Left` of them, and not
      before. */
  lemma {:induction false} FrameTakes(c: Config, ins: seq<In>)
    requires Going(c) && Always(Next, c, ins, SmoothEdge) && |ins| <= Left(c.s)
    ensures if |ins| == Left(c.s) then Finished(After(c, ins)) else Going(After(c, ins))
    decreases |ins|
  {
    hide Next, SmoothEdge, SteadyEdge, LegalEdge, Going, Finished, Left, ToGo, MwrTlast;
    LeftIsPositive(c);
    if ins != [] {
      SmoothIsSteady(c, ins[0]);
      GoingStep(c, ins[0]);
      if Left(c.s) > 1 {
        FrameTakes(Next(c, ins[0]), ins[1..]);
      } else {
        OneEdge(c, ins);
      }
    }
  }

  lemma SmoothIsSteady(c: Config, i: In)
    requires SmoothEdge(c, i)
    ensures SteadyEdge(c, i)
  {
  }

  lemma LeftIsPositive(c: Config)
    requires Going(c)
    ensures Left(c.s) >= 1 && ToGo(c.s) >= 1
  {
    CountInFrame(c.s);
  }

  /** One TLP: from anywhere in it, the stated number of smooth edges later it has been accepted. */
  lemma {:induction false} TlpTakes(c: Config, ins: seq<In>)
    requires Going(c) && Always(Next, c, ins, SmoothEdge) && |ins| == ToGo(c.s)
    ensures var d := After(c, ins);
            if c.s.xfer.cnt == FRAME_TLPS - 1 then Finished(d) else Going(d) && d.s.xfer.cnt == c.s.xfer.cnt + 1
    decreases |ins|
  {
    hide Next, SmoothEdge, SteadyEdge, LegalEdge, Going, Finished, Left, ToGo, MwrTlast;
    LeftIsPositive(c);
    SmoothIsSteady(c, ins[0]);
    GoingStep(c, ins[0]);
    if ToGo(c.s) == 1 {
      OneEdge(c, ins);
    } else {
      TlpTakes(Next(c, ins[0]), ins[1..]);
    }
  }

  /** The smooth edges of a run. */
  function Smooths(c: Config, ins: seq<In>): nat
    decreases |ins|
  {
    if ins == [] then 0
    else (if SmoothEdge(c, ins[0]) then 1 else 0) + Smooths(Next(c, ins[0]), ins[1..])
  }

  /** Stalls and an empty FIFO only delay: a steady run with `Left` smooth edges in it has shown DONE
      by then. */
  lemma {:induction false} DelayedFrame(c: Config, ins: seq<In>) returns (k: nat)
    requires Going(c) && Always(Next, c, ins, SteadyEdge) && Smooths(c, ins) >= Left(c.s)
    ensures k <= |ins| && Finished(After(c, ins[..k]))
    decreases |ins|
  {
    hide Next, SmoothEdge, SteadyEdge, LegalEdge, Going, Finished, Left, ToGo, MwrTlast;
    LeftIsPositive(c);
    var d := Next(c, ins[0]);
    GoingStep(c, ins[0]);
    if Finished(d) {
      k := 1;
      OneEdge(c, ins[..1]);
    } else {
      k := DelayedFrame(d, ins[1..]);
      assert ins[..k + 1][1..] == ins[1..][..k];
      k := k + 1;
    }
  }

  // ---------------------------------------------------------------- STOP

  /** A STOP waits for the TLP under way. */
  predicate Stopping(c: Config) { Good(c) && c.s.host.stopPending && !c.s.host.stopFlag && c.s.mwr != MwrIdle }

  /** A STOP waits for nothing any more. */
  predicate StopDue(c: Config) { c.s.host.stopPending && c.s.mwr == MwrIdle && !c.s.out.tvalid }

  predicate SmoothTick(c: Config, i: In) { Steady(c.s, i) && i.tready }

  lemma StopNears(s: Regs, i: In, t: Regs)
    requires PartsOk(s) && s.host.stopPending && !s.host.stopFlag && s.mwr != MwrIdle
    requires Steady(s, i) && i.tready && EngineEdge(s, i, t)
    ensures t.host.stopPending && !t.host.stopFlag && ToGo(s) >= 1
    ensures if ToGo(s) == 1 then t.mwr == MwrIdle && !t.out.tvalid else t.mwr != MwrIdle && ToGo(t) == ToGo(s) - 1
  {
    hide Swab32, RangeValid, ActiveValid, TlpLimit, Preempted;
  }

  lemma StoppingStep(c: Config, i: In)
    requires Stopping(c) && SmoothTick(c, i)
    ensures ToGo(c.s) >= 1
    ensures if ToGo(c.s) == 1 then StopDue(Next(c, i)) else Stopping(Next(c, i)) && ToGo(Next(c, i).s) == ToGo(c.s) - 1
  {
    var t := Next(c, i).s;
    assert EngineEdge(c.s, i, t);
    hide Step, NextHistory, NextHost, NextXfer, NextCpl, NextOut, NextMwr, EngineEdge, ToGo, HistoryOk, Legal;
    StoppingIsLegal(c.s, i);
    GoodStep(c, i);
    StopNears(c.s, i, t);
  }

  lemma StoppingIsLegal(s: Regs, i: In)
    requires Machines(s) && s.mwr != MwrIdle && Link(i)
    ensures Legal(s, i)
  {
  }

  /** A due STOP is acknowledged at the next edge, whatever else happens there. */
  lemma DueStopIsAcknowledged(c: Config, i: In)
    requires StopDue(c) && i.rstn && i.linkUp
    ensures Next(c, i).s.host.stopAck && Parked(Next(c, i))
  {
  }

  /** So a STOP that meets a TLP takes the rest of that TLP and is due then. */
  lemma {:induction false} StopTakes(c: Config, ins: seq<In>)
    requires Stopping(c) && Always(Next, c, ins, SmoothTick) && |ins| == ToGo(c.s)
    ensures StopDue(After(c, ins))
    decreases |ins|
  {
    hide Next, SmoothTick, Stopping, StopDue, ToGo;
    if ins == [] {
      StoppingHasLeft(c);
    } else {
      StoppingStep(c, ins[0]);
      if ToGo(c.s) == 1 {
        OneEdge(c, ins);
      } else {
        StopTakes(Next(c, ins[0]), ins[1..]);
      }
    }
  }

  lemma StoppingHasLeft(c: Config)
    requires Stopping(c)
    ensures ToGo(c.s) >= 1
  {
  }

  // ---------------------------------------------------------------- a whole frame, from reset

  /** Five words lie in the FIFO, and the run so far was fed. */
  predicate Supplied(xs: seq<StreamIn>, f: Stream) {
    RunTo(xs, f, true) && Moving(f.c.s) && |f.unread| == 5 && f.hold == 0
  }

  /** The frame has begun and `n` words have gone into the FIFO. */
  predicate FillingUp(f: Stream, a: u32, n: nat) {
    && Waiting(f.c.s, StartedAt(a), a, true, false) && |f.unread| == n && f.hold == 0
  }

  lemma FillsUp(f: Stream, a: u32, n: nat, w: Quad, g: Stream)
    requires FrameFits(a, FRAME_BYTES) && n < 5 && FillingUp(f, a, n) && Quiet(f.c.s)
    requires StreamMoves(f, Tick(true, [w]), g)
    ensures FillingUp(g, a, n + 1)
  {
    var i := Pins(f, Tick(true, [w]));
    hide StartedAt, NextHost, NextXfer, NextCpl, NextOut, NextMwr, Next;
    StartedHost(a);
    Waits(f.c.s, StartedAt(a), a, true, i, g.c.s);
  }

  lemma {:induction false} FilledUp(xs: seq<StreamIn>, f: Stream, a: u32, n: nat, w: Quad)
    returns (more: seq<StreamIn>, g: Stream)
    requires FrameFits(a, FRAME_BYTES) && n <= 5 && RunTo(xs, f, true) && FillingUp(f, a, n)
    ensures Supplied(more, g) && g.c.s.host.activeAddr == a
    decreases 5 - n
  {
    if n == 5 {
      StartedHost(a);
      more, g := xs, f;
    } else {
      hide RunTo, FillingUp, StreamMoves, Supplied, NextStream;
      QuietThere(xs, f, true);
      more, g := Ticks(xs, f, true, true, [w]);
      FillsUp(f, a, n, w, g);
      more, g := FilledUp(more, g, a, n + 1, w);
    }
  }

  /** One word in for every word out. */
  function Refill(f: Stream, w: Quad): (pushed: seq<Quad>)
    ensures |pushed| <= 1
  {
    if f.c.s.out.rdEn then [w] else []
  }

  lemma StaysSupplied(f: Stream, w: Quad, g: Stream)
    requires Moving(f.c.s) && |f.unread| == 5 && f.hold == 0 && g == NextStream(f, Tick(true, Refill(f, w)))
    ensures |g.unread| == 5 && g.hold == 0
    ensures SmoothEdge(f.c, Pins(f, Tick(true, Refill(f, w)))) == SmoothEdge(f.c, Pins(f, Tick(true, [])))
    ensures g.c == Next(f.c, Pins(f, Tick(true, Refill(f, w))))
  {
    hide Next, Loads, InPlace;
  }

  lemma TickIsSmooth(f: Stream, w: seq<Quad>)
    requires Quiet(f.c.s) && |f.unread| == 5
    ensures SmoothEdge(f.c, Pins(f, Tick(true, w)))
  {
  }

  lemma FedIsGood(xs: seq<StreamIn>, f: Stream)
    requires RunTo(xs, f, true)
    ensures Good(f.c) && StreamOk(f)
  {
    StreamRun(NO_WORD, xs);
  }

  /** From a supplied FIFO on, edge by edge to DONE. */
  lemma {:induction false} Marches(xs: seq<StreamIn>, f: Stream, w: Quad) returns (more: seq<StreamIn>, g: Stream)
    requires Supplied(xs, f) && Going(f.c)
    ensures RunTo(more, g, true) && Finished(g.c) && g.c.s.host.activeAddr == f.c.s.host.activeAddr
    decreases Left(f.c.s)
  {
    var i := Pins(f, Tick(true, Refill(f, w)));
    hide RunTo, StreamMoves, NextStream, Going, Finished, Left, SmoothEdge, SteadyEdge, LegalEdge, Next, ToGo, Refill;
    LeftIsPositive(f.c);
    QuietThere(xs, f, true);
    more, g := Ticks(xs, f, true, true, Refill(f, w));
    StaysSupplied(f, w, g);
    TickIsSmooth(f, Refill(f, w));
    SmoothIsSteady(f.c, i);
    GoingStep(f.c, i);
    if Left(f.c.s) > 1 {
      GoingMoves(g.c);
      more, g := Marches(more, g, w);
    }
  }

  lemma GoingMoves(c: Config)
    requires Going(c)
    ensures Moving(c.s)
  {
  }

  lemma Marched(a: u32, w: Quad) returns (xs: seq<StreamIn>, g: Stream)
    requires FrameFits(a, FRAME_BYTES)
    ensures RunTo(xs, g, true) && Finished(g.c) && g.c.s.host.activeAddr == a
  {
    hide RunTo, Supplied, FillingUp, Asleep, Going, Finished;
    var f;
    xs, f := FrameBegun(a);
    BegunIsEmpty(f, a);
    xs, f := FilledUp(xs, f, a, 0, w);
    SuppliedGoes(xs, f);
    xs, g := Marches(xs, f, w);
  }

  lemma BegunIsEmpty(f: Stream, a: u32)
    requires Asleep(f, a, true, 0)
    ensures FillingUp(f, a, 0)
  {
  }

  lemma SuppliedGoes(xs: seq<StreamIn>, f: Stream)
    requires Supplied(xs, f)
    ensures Going(f.c)
  {
    FedIsGood(xs, f);
  }

  /** For every address at which a frame fits: a run from reset, with ordinary writes, TREADY high and
      at most one word a cycle into the FIFO, shows DONE for that address. */
  lemma DoneIsReachable(a: u32, w: Quad) returns (xs: seq<StreamIn>, g: Stream)
    requires FrameFits(a, FRAME_BYTES)
    ensures Always(NextStream, StreamStart(NO_WORD), xs, FedEdge) && OneByOne(xs)
    ensures RunFrom(NextStream, StreamStart(NO_WORD), xs) == g
    ensures g.c.s.host.done && g.c.s.host.activeAddr == a
  {
    hide Good, NextStream, StreamStart, FedEdge, UncutEdge;
    xs, g := Marched(a, w);
  }
}
