/** Register reads: from the edge that decodes one to the beats of its completion, under any TREADY.
    The completion machine does not wait for its own beats to be taken, so TREADY decides at three
    cycles whether the host gets one header and one data beat, or too few or too many of them. */
module DmaReads {
  import opened Words
  import opened Runs
  import opened DmaEngine
  import opened DmaInvariant
  import opened DmaHistory

  /** Nothing resets or reloads the output registers. */
  predicate OpenEdge(c: Config, i: In) {
    i.rstn && i.linkUp && !c.s.host.stopFlag && (c.s.host.start ==> c.s.xfer.rc)
  }

  /** A completion with value `v` is on its way. */
  predicate Pending(s: Regs, v: u32, state: CplState) { s.cpl == Cpl(true, v, state) }

  predicate Offers(s: Regs, b: OutBeat) { s.out.tvalid && OutBeat(s.out.tdata, s.out.tlast) == b }

  const HEADER_BEAT := OutBeat(CompletionHeader, false)

  /** The register's value, in the byte order of a TLP. */
  function DataBeat(v: u32): OutBeat { OutBeat(Completion(Swab32(v)), true) }

  /** In the HEADER state, from its second cycle on the header is on offer. */
  predicate AtHeader(s: Regs, v: u32, again: bool) {
    Pending(s, v, CplHeader) && if again then Offers(s, HEADER_BEAT) else !s.out.tvalid
  }

  /** In the DATA state, first the header is on offer and then the data. */
  predicate AtData(s: Regs, v: u32, again: bool) {
    Pending(s, v, CplData) && Offers(s, if again then DataBeat(v) else HEADER_BEAT)
  }

  /** The machine is free again, with the data on offer for one more cycle. */
  predicate AtEnd(s: Regs, v: u32) { !s.cpl.pending && s.cpl.state == CplIdle && Offers(s, DataBeat(v)) }

  /** The beats that the edges of a run accept. */
  function Accepted(c: Config, i: In): seq<OutBeat> {
    if TxFire(c.s, i) then [OutBeat(c.s.out.tdata, c.s.out.tlast)] else []
  }

  function Sent(c: Config, ins: seq<In>): seq<OutBeat>
    decreases |ins|
  {
    if ins == [] then [] else Accepted(c, ins[0]) + Sent(Next(c, ins[0]), ins[1..])
  }

  lemma {:induction false} SentConcat(c: Config, a: seq<In>, b: seq<In>)
    ensures Sent(c, a + b) == Sent(c, a) + Sent(After(c, a), b)
    decreases |a|
  {
    hide Next, Accepted;
    if a == [] {
      assert a + b == b;
    } else {
      assert (a + b)[1..] == a[1..] + b;
      SentConcat(Next(c, a[0]), a[1..], b);
    }
  }

  /** TREADY comes up at the last of these edges and not before. */
  predicate UpAtLast(ins: seq<In>) {
    ins != [] && ins[|ins| - 1].tready && forall k | 0 <= k < |ins| - 1 :: !ins[k].tready
  }

  // ---------------------------------------------------------------- one edge

  lemma ReadIsTaken(c: Config, i: In)
    requires i.rstn && i.linkUp && IsRead(c.s) && !c.s.cpl.pending && c.s.cpl.state == CplIdle
    ensures Pending(Next(c, i).s, ReadMux(c.s), CplIdle)
  {
    hide StatusWord, NextHistory, NextHost, NextXfer, NextMwr, NextInbound, NextFault, NextOut, ReadMux;
  }

  /** A pending read waits while a memory write has the output, or TREADY is low. */
  predicate Waits(c: Config, i: In) { OpenEdge(c, i) && (MwrTxActive(c.s, i) || !i.tready) }

  lemma WaitStep(c: Config, i: In, v: u32)
    requires Pending(c.s, v, CplIdle) && OpenEdge(c, i)
    ensures if Waits(c, i) then Pending(Next(c, i).s, v, CplIdle) else AtHeader(Next(c, i).s, v, false)
  {
    hide StatusWord, NextHistory, NextHost, NextXfer, NextMwr, NextInbound, NextFault, HostEventOf;
  }

  lemma HeaderStep(c: Config, i: In, v: u32, again: bool)
    requires AtHeader(c.s, v, again) && OpenEdge(c, i)
    ensures if i.tready then AtData(Next(c, i).s, v, false) else AtHeader(Next(c, i).s, v, true)
    ensures Accepted(c, i) == if i.tready && again then [HEADER_BEAT] else []
  {
    hide StatusWord, NextHistory, NextHost, NextXfer, NextMwr, NextInbound, NextFault, HostEventOf, Swab32;
  }

  lemma DataStep(c: Config, i: In, v: u32, again: bool)
    requires AtData(c.s, v, again) && OpenEdge(c, i)
    ensures if i.tready then AtEnd(Next(c, i).s, v) else AtData(Next(c, i).s, v, true)
    ensures Accepted(c, i) == if i.tready then [if again then DataBeat(v) else HEADER_BEAT] else []
  {
    hide StatusWord, NextHistory, NextHost, NextXfer, NextMwr, NextInbound, NextFault, HostEventOf, Swab32;
  }

  lemma OneEdge(c: Config, ins: seq<In>)
    requires |ins| == 1
    ensures After(c, ins) == Next(c, ins[0]) && Sent(c, ins) == Accepted(c, ins[0])
  {
    hide Next, Accepted;
    assert ins[1..] == [];
    assert After(Next(c, ins[0]), []) == Next(c, ins[0]);
    assert Sent(Next(c, ins[0]), []) == [];
  }

  // ---------------------------------------------------------------- the phases of one completion

  lemma {:induction false} WaitPhase(c: Config, ins: seq<In>, v: u32)
    requires Pending(c.s, v, CplIdle) && Always(Next, c, ins, Waits)
    ensures Pending(After(c, ins).s, v, CplIdle)
    decreases |ins|
  {
    hide Next, Pending, AtHeader;
    if ins != [] {
      WaitStep(c, ins[0], v);
      hide Waits;
      WaitPhase(Next(c, ins[0]), ins[1..], v);
    }
  }

  lemma {:induction false} HeaderPhase(c: Config, ins: seq<In>, v: u32, again: bool)
    requires AtHeader(c.s, v, again) && UpAtLast(ins) && Always(Next, c, ins, OpenEdge)
    ensures AtData(After(c, ins).s, v, false)
    ensures Sent(c, ins) == if again || |ins| > 1 then [HEADER_BEAT] else []
    decreases |ins|
  {
    hide Next, OpenEdge, AtHeader, AtData, Accepted;
    HeaderStep(c, ins[0], v, again);
    if |ins| == 1 {
      OneEdge(c, ins);
    } else {
      HeaderPhase(Next(c, ins[0]), ins[1..], v, true);
    }
  }

  lemma {:induction false} DataPhase(c: Config, ins: seq<In>, v: u32, again: bool)
    requires AtData(c.s, v, again) && UpAtLast(ins) && Always(Next, c, ins, OpenEdge)
    ensures AtEnd(After(c, ins).s, v)
    ensures Sent(c, ins) == [if again || |ins| > 1 then DataBeat(v) else HEADER_BEAT]
    decreases |ins|
  {
    hide Next, OpenEdge, AtData, AtEnd, Accepted, DataBeat;
    DataStep(c, ins[0], v, again);
    if |ins| == 1 {
      OneEdge(c, ins);
    } else {
      DataPhase(Next(c, ins[0]), ins[1..], v, true);
    }
  }

  // ---------------------------------------------------------------- what the host gets

  /** The edges of one completion: `hs` in the HEADER state, `ds` in the DATA state, `z` after them. */
  predicate CompletionRun(c: Config, hs: seq<In>, ds: seq<In>) {
    && UpAtLast(hs) && UpAtLast(ds)
    && Always(Next, c, hs, OpenEdge) && Always(Next, After(c, hs), ds, OpenEdge)
  }

  lemma LastStep(c: Config, z: In, v: u32)
    requires AtEnd(c.s, v)
    ensures Sent(c, [z]) == if z.tready then [DataBeat(v)] else []
  {
    OneEdge(c, [z]);
    hide Next, DataBeat;
  }

  /** What is accepted if TREADY is low at the start of the HEADER state, or of the DATA state, and if
      it is high after it. */
  function Taken(v: u32, lateHeader: bool, lateData: bool, ready: bool): seq<OutBeat> {
    (if lateHeader then [HEADER_BEAT] else []) + [if lateData then DataBeat(v) else HEADER_BEAT]
    + (if ready then [DataBeat(v)] else [])
  }

  /** The accepted beats, and the machine is free. */
  lemma CompletionBeats(c: Config, v: u32, hs: seq<In>, ds: seq<In>, z: In)
    requires AtHeader(c.s, v, false) && CompletionRun(c, hs, ds)
    ensures Sent(c, hs + ds + [z]) == Taken(v, |hs| > 1, |ds| > 1, z.tready)
    ensures AtEnd(After(After(c, hs), ds).s, v)
  {
    hide Next, OpenEdge, AtHeader, AtData, AtEnd, UpAtLast, DataBeat, Sent;
    HeaderPhase(c, hs, v, false);
    DataPhase(After(c, hs), ds, v, false);
    LastStep(After(After(c, hs), ds), z, v);
    hide CompletionRun, Always, RunFrom, After;
    SentConcat(c, hs, ds + [z]);
    SentConcat(After(c, hs), ds, [z]);
    assert hs + ds + [z] == hs + (ds + [z]);
  }

  /** Exactly one header and then the data arrive if and only if TREADY is the same in the first cycle
      of the HEADER state, the first of the DATA state and the first after it. */
  lemma CompletionWhole(c: Config, v: u32, hs: seq<In>, ds: seq<In>, z: In)
    requires AtHeader(c.s, v, false) && CompletionRun(c, hs, ds)
    ensures Sent(c, hs + ds + [z]) == [HEADER_BEAT, DataBeat(v)] <==> hs[0].tready == ds[0].tready == z.tready
  {
    hide Sent, DataBeat, AtHeader, AtEnd, OpenEdge, Next, UpAtLast, Taken, Always, RunFrom;
    CompletionBeats(c, v, hs, ds, z);
    UpAtOnce(hs);
    UpAtOnce(ds);
    OneOfEach(v, |hs| > 1, |ds| > 1, z.tready);
  }

  lemma OneOfEach(v: u32, x: bool, y: bool, z: bool)
    ensures Taken(v, x, y, z) == [HEADER_BEAT, DataBeat(v)] <==> !x == !y == z
  {
    hide Swab32;
    var beats := Taken(v, x, y, z);
    if beats == [HEADER_BEAT, DataBeat(v)] {
      assert beats[0] == HEADER_BEAT && beats[1] == DataBeat(v);
    }
  }

  lemma UpAtOnce(ins: seq<In>)
    requires UpAtLast(ins)
    ensures ins != [] && (ins[0].tready <==> |ins| == 1)
  {
  }

  /** A read that meets an idle completion machine, from its decoding: however long a memory write or
      TREADY keeps it waiting, and whatever the registers become meanwhile, it is answered with the
      value that the register had when it was decoded. */
  lemma ReadIsAnswered(c: Config, i: In, ws: seq<In>, e: In, hs: seq<In>, ds: seq<In>, z: In)
    requires i.rstn && i.linkUp && IsRead(c.s) && !c.s.cpl.pending && c.s.cpl.state == CplIdle
    requires var a := After(Next(c, i), ws);
             && Always(Next, Next(c, i), ws, Waits) && OpenEdge(a, e) && !Waits(a, e)
             && CompletionRun(Next(a, e), hs, ds)
    ensures var d := Next(After(Next(c, i), ws), e);
            && (Sent(d, hs + ds + [z]) == [HEADER_BEAT, DataBeat(ReadMux(c.s))] <==>
                  hs[0].tready == ds[0].tready == z.tready)
            && AtEnd(After(After(d, hs), ds).s, ReadMux(c.s))
  {
    hide Next, OpenEdge, Pending, AtHeader, Sent, CompletionRun, Waits, ReadMux, DataBeat;
    ReadIsTaken(c, i);
    var (b, v) := (Next(c, i), ReadMux(c.s));
    WaitPhase(b, ws, v);
    var a := After(b, ws);
    WaitStep(a, e, v);
    CompletionWhole(Next(a, e), v, hs, ds, z);
    CompletionBeats(Next(a, e), v, hs, ds, z);
  }
}
