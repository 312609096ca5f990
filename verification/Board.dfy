/** The whole board on clock edges: the SPI slave in front of the design (fpga/src/nids_top.v), seen from
    the master. */
module Board {
  import opened Words
  import opened Stream
  import opened SpiSlave
  import opened Master
  import B = Bloom
  import Ch = Chip
  import D = Device
  import F = Fpga
  import L = Link
  import N = NidsTop
  import W = Wire

  /** The link's levels and the window timer on one clock edge. */
  datatype Pins = Pins(l: Level, tick: bool)

  datatype Registers = Registers(spi: SpiSlave.Registers, chip: Ch.Registers)

  // ----- frames of bits and of bytes -----

  function FrameOf(b: Frame): (f: W.Frame) {
    BytesLength(b);
    BytesOf(b)
  }

  function Wired(f: W.Frame): (b: Frame) {
    BitsOf(f)
  }

  lemma WiredReads(f: W.Frame)
    ensures FrameOf(Wired(f)) == f
  {
    BytesRoundTrip(f);
  }

  /** The complete frames among the bits of one transfer. */
  function FramesIn(b: Bits): seq<W.Frame> {
    if b == [] then []
    else
      FramesIn(Init(b)) + if Partial(|b|) == 0 && |b| >= FRAME_BITS then [FrameOf(LastFrame(b))] else []
  }

  lemma {:induction false} HowMany(b: Bits)
    ensures |FramesIn(b)| == |b| / FRAME_BITS
  {
    hide FrameOf;
    if b == [] {
    } else {
      HowMany(Init(b));
      GroupStep(|b| - 1);
      GroupStep(|b|);
    }
  }

  /** They are its successive groups of 256 bits; a rest is dropped. */
  lemma {:induction false} FramesAreGroups(b: Bits, j: nat)
    requires j < |FramesIn(b)|
    ensures FRAME_BITS * j + FRAME_BITS <= |b|
    ensures FramesIn(b)[j] == FrameOf(b[FRAME_BITS * j..FRAME_BITS * j + FRAME_BITS])
  {
    hide FrameOf;
    if b == [] {
    } else {
      var was := Init(b);
      HowMany(was);
      GroupStep(|was|);
      if j < |FramesIn(was)| {
        FramesAreGroups(was, j);
        assert was[FRAME_BITS * j..FRAME_BITS * j + FRAME_BITS] == b[FRAME_BITS * j..FRAME_BITS * j + FRAME_BITS];
      } else {
        HowMany(b);
        assert j == |was| / FRAME_BITS && Partial(|was| + 1) == 0;
        assert LastFrame(b) == b[FRAME_BITS * j..FRAME_BITS * j + FRAME_BITS];
      }
    }
  }

  lemma GroupStep(n: nat)
    ensures (n + 1) / FRAME_BITS == n / FRAME_BITS + if Partial(n + 1) == 0 then 1 else 0
    ensures Partial(n + 1) == 0 ==> FRAME_BITS * (n / FRAME_BITS) + FRAME_BITS == n + 1
    ensures Partial(n + 1) == 0 <==> Partial(n) == FRAME_BITS - 1
    ensures Partial(n + 1) <= Partial(n) + 1 && Partial(0) == 0 && Partial(1) == 1
    ensures Partial(n) == 0 && n > 0 ==> n >= FRAME_BITS
  {
  }

  /** The complete frames of all transfers, in order. */
  function Completed(sent: seq<Bits>): seq<W.Frame> {
    if sent == [] then [] else Completed(Init(sent)) + FramesIn(Last(sent))
  }

  /** What the slave owes a transfer after these: the pending reply of the frame-level device that has
      been sent their complete frames. */
  ghost function ReplyTo(first: D.Dev, ticks: nat -> nat, sent: seq<Bits>): Frame {
    if first.Valid() then Wired(L.Played(first, Completed(sent), ticks).tx) else Zeros()
  }

  // ----- what the edges amount to -----

  function Levels(edges: seq<Pins>): (ls: seq<Level>)
    ensures |ls| == |edges|
  {
    if edges == [] then [] else Levels(Init(edges)) + [Last(edges).l]
  }

  /** The frame that the slave completes on the last of these edges, if any. */
  function Arrival(ls: seq<Level>): Option<W.Frame> {
    if Completes(ls) && |Sampled(ls)| >= FRAME_BITS then Some(FrameOf(LastFrame(Sampled(ls)))) else None
  }

  /** What the slave and the timer present to the design. */
  function Inputs(edges: seq<Pins>): (ins: seq<Ch.Pins>)
    ensures |ins| == |edges|
  {
    if edges == [] then [] else Inputs(Init(edges)) + [Ch.Pins(Arrival(Levels(edges)), Last(edges).tick)]
  }

  lemma {:induction false} EdgeInputs(edges: seq<Pins>, i: Pins)
    ensures Levels(edges + [i]) == Levels(edges) + [i.l]
    ensures Inputs(edges + [i]) == Inputs(edges) + [Ch.Pins(Arrival(Levels(edges) + [i.l]), i.tick)]
  {
    hide Arrival;
    assert Init(edges + [i]) == edges;
  }

  lemma {:induction false} PrefixInputs(edges: seq<Pins>, t: nat)
    requires t <= |edges|
    ensures Inputs(edges)[..t] == Inputs(edges[..t])
  {
    hide Arrival, Levels;
    if t == |edges| {
      assert edges[..t] == edges;
    } else {
      PrefixInputs(Init(edges), t);
      assert Init(edges)[..t] == edges[..t];
    }
  }

  /** How many edges ago the last frame was completed. */
  function Age(edges: seq<Pins>): Option<nat> {
    Ch.Age(Inputs(edges))
  }

  /** What the master and the timer owe on one more edge: at a selection the clock is low and the last
      frame was completed at least GAP edges ago, and no window ends on the five edges on which the packet
      of a classify frame is being counted. */
  ghost predicate Fair(edges: seq<Pins>, i: Pins) {
    && (Selects(Levels(edges), i.l) ==> !i.l.sclk && Ch.AtLeast(Age(edges), F.GAP))
    && (i.tick ==> !Ch.LastIs(Inputs(edges), W.OP_CLASSIFY, 1, Ch.SERVED))
  }

  // ----- the state -----

  /** The ghost state: the frame latched for the transfer, its falling edges, and the design's past. */
  datatype Past = Past(latched: Frame, falls: nat, chip: Ch.Past)

  ghost predicate Sound(k: Registers, p: Past, edges: seq<Pins>, first: D.Dev, ticks: nat -> nat) {
    && first.Valid() && k.spi.Sound(Levels(edges), p.latched, p.falls) && Ch.Sound(k.chip, p.chip)
    && Ch.InStep(p.chip, Inputs(edges), first) && Ch.Arrivals(Inputs(edges)) == Completed(Sent(Levels(edges)))
    && InTransfer(p.latched, edges, first, ticks)
  }

  /** While selected, the transfer returns the reply that was pending at its selection; a frame takes more
      edges than it has bits. */
  ghost predicate InTransfer(latched: Frame, edges: seq<Pins>, first: D.Dev, ticks: nat -> nat) {
    var ls := Levels(edges);
    Active(ls) ==>
      && Sent(ls) != [] && latched == ReplyTo(first, ticks, Init(Sent(ls)))
      && BitsFit(|Sampled(ls)|, Age(edges))
  }

  predicate BitsFit(n: nat, age: Option<nat>) {
    Ch.AtLeast(age, F.GAP) || Partial(n) <= age.value
  }

  // ----- one edge -----

  /** What one edge of the link does to the completed frames. */
  lemma {:induction false} CompletedStep(ls: seq<Level>, l: Level)
    ensures var a := Arrival(ls + [l]);
      Completed(Sent(ls + [l])) == Completed(Sent(ls)) + if a.Some? then [a.value] else []
    ensures Arrival(ls + [l]).Some? <==>
      Active(ls) && !l.csN && Rises(ls, l) && Partial(|Sampled(ls)|) == FRAME_BITS - 1
  {
    hide Sent, FrameOf, LastFrame, Completed, Partial, FramesIn;
    SentStep(ls, l);
    EdgeSamples(ls, l);
    GroupStep(|Sampled(ls)|);
    GroupStep(|Sampled(ls + [l])|);
    var before, after := Sent(ls), Sent(ls + [l]);
    if l.csN {
    } else if Selects(ls, l) || before == [] {
      NewTransfer(before, if Rises(ls, l) then [l.mosi] else []);
    } else {
      assert before == Init(before) + [Last(before)] && after == Init(before) + [Last(after)];
      assert Init(after) == Init(before) && Last(after) == Sampled(ls + [l]);
      if Rises(ls, l) {
        GrownTransfer(Init(before), Last(before), l.mosi);
      } else {
        assert Last(before) + [] == Last(before);
      }
    }
  }

  lemma {:induction false} NewTransfer(before: seq<Bits>, s: Bits)
    requires |s| <= 1
    ensures Completed(before + [s]) == Completed(before)
  {
    hide FrameOf;
    assert Init(before + [s]) == before && Last(before + [s]) == s;
    GroupStep(0);
    assert FramesIn(s) == [] by {
      assert FramesIn([]) == [];
      if s != [] {
        assert Init(s) == [];
      }
    }
  }

  lemma {:induction false} GrownTransfer(before: seq<Bits>, b: Bits, x: bool)
    ensures Completed(before + [b + [x]]) == Completed(before + [b])
      + if Partial(|b + [x]|) == 0 && |b + [x]| >= FRAME_BITS then [FrameOf(LastFrame(b + [x]))] else []
  {
    hide FrameOf, LastFrame, Partial;
    assert Init(before + [b]) == before && Init(before + [b + [x]]) == before;
    assert Last(before + [b + [x]]) == b + [x] && Init(b + [x]) == b;
  }

  /** A completed frame finds the design at rest. */
  lemma {:induction false} ArrivalIsSpaced(latched: Frame, edges: seq<Pins>, i: Pins, first: D.Dev, ticks: nat -> nat)
    requires InTransfer(latched, edges, first, ticks) && Fair(edges, i)
    ensures Arrival(Levels(edges) + [i.l]).Some? ==> Ch.AtLeast(Age(edges), F.GAP)
  {
    hide Sent, Sampled, Completed, FrameOf, LastFrame, Completes, Levels, Age, ReplyTo, Partial;
    CompletedStep(Levels(edges), i.l);
  }

  lemma {:induction false} ArrivalsStep(edges: seq<Pins>, i: Pins)
    requires Ch.Arrivals(Inputs(edges)) == Completed(Sent(Levels(edges)))
    ensures Ch.Arrivals(Inputs(edges + [i])) == Completed(Sent(Levels(edges + [i])))
  {
    hide Sent, Completed, Arrival, Levels;
    EdgeInputs(edges, i);
    CompletedStep(Levels(edges), i.l);
    assert Init(Inputs(edges + [i])) == Inputs(edges);
  }

  lemma {:induction false} AgeStep(edges: seq<Pins>, i: Pins)
    ensures Age(edges + [i]) == if Arrival(Levels(edges) + [i.l]).Some? then Some(0)
      else if Age(edges).Some? then Some(Age(edges).value + 1) else None
  {
    hide Arrival, Levels;
    EdgeInputs(edges, i);
    assert Init(Inputs(edges + [i])) == Inputs(edges);
  }

  /** The transfer in progress keeps its reply. */
  lemma {:induction false} TransferMoves(latched: Frame, edges: seq<Pins>, i: Pins, first: D.Dev, ticks: nat -> nat,
      tx: W.Frame)
    requires first.Valid() && InTransfer(latched, edges, first, ticks) && Fair(edges, i)
    requires Ch.AtLeast(Age(edges), F.GAP) ==> tx == L.Played(first, Completed(Sent(Levels(edges))), ticks).tx
    ensures InTransfer(LatchedAfter(Levels(edges), i.l, Wired(tx), latched), edges + [i], first, ticks)
  {
    hide D.Dev.Valid, Completed, FrameOf, Wired, Sent, Sampled, L.Played, Levels, Age, Arrival, Partial,
      Inputs, Ch.LastIs;
    var ls := Levels(edges);
    SentStep(ls, i.l);
    EdgeSamples(ls, i.l);
    EdgeInputs(edges, i);
    AgeStep(edges, i);
    CompletedStep(ls, i.l);
    GroupStep(|Sampled(ls)|);
  }

  lemma SlaveArrival(k: SpiSlave.Registers, ls: seq<Level>, latched: Frame, falls: nat)
    requires k.Sound(ls, latched, falls)
    ensures Arrival(ls) == if k.rxFrameValid then Some(FrameOf(k.rxFrame)) else None
  {
    hide FrameOf;
  }

  /** The ticks of a run are those of its edges so far, for every frame that has taken effect. */
  ghost predicate Agrees(ticks: nat -> nat, edges: seq<Pins>) {
    !Ch.EarlyIn(Inputs(edges)) ==>
      forall n :: 0 <= n < |Completed(Sent(Levels(edges)))| ==> ticks(n) == Ch.TicksBefore(Inputs(edges), n)
  }

  /** At rest the reply register and all stores are the frame-level device's. */
  lemma {:induction false} RestedShows(k: Registers, p: Past, edges: seq<Pins>, first: D.Dev, ticks: nat -> nat)
    requires Sound(k, p, edges, first, ticks) && Agrees(ticks, edges)
    ensures Ch.AtLeast(Age(edges), F.GAP) ==>
      Ch.Shows(k.chip, L.Played(first, Completed(Sent(Levels(edges))), ticks), Ch.Pending(Inputs(edges)))
  {
    hide Ch.Sound, Ch.InStep, SpiSlave.Registers.Sound, L.Played, D.Dev.Valid, InTransfer, Ch.Age, Ch.Shows,
      Ch.TicksBefore, Ch.Pending, Completed, Sent, Levels;
    SoundParts(k, p, edges, first, ticks);
    Ch.RunShows(k.chip, p.chip, Inputs(edges), first);
    if Ch.AtLeast(Age(edges), F.GAP) {
      L.PlayedSame(first, Completed(Sent(Levels(edges))), ticks, Ch.Ticks(Inputs(edges)));
    }
  }

  lemma SoundParts(k: Registers, p: Past, edges: seq<Pins>, first: D.Dev, ticks: nat -> nat)
    requires Sound(k, p, edges, first, ticks)
    ensures p.chip.service.Valid()
  {
    hide F.Sound, Ch.TelAt, SpiSlave.Registers.Sound, Ch.InStep, InTransfer;
  }

  lemma ShownTx(k: Ch.Registers, d: D.Dev, ended: nat)
    requires Ch.Shows(k, d, ended)
    ensures k.fpga.top.tx == d.tx
  {
  }

  /** The ghost state after one more edge. */
  ghost function Next(k: Registers, n: Registers, p: Past, edges: seq<Pins>, i: Pins): Past
    requires p.chip.service.Valid()
  {
    var ls := Levels(edges);
    Past(LatchedAfter(ls, i.l, Wired(k.chip.fpga.top.tx), p.latched), FallsAfter(ls, i.l, p.falls),
         Ch.Next(k.chip, n.chip, p.chip, Ch.Pins(Arrival(ls + [i.l]), i.tick)))
  }

  /** One rising clock edge of slave and design out of reset; ticks(n) windows end before the n-th frame. */
  method Edge(k: Registers, i: Pins, ghost p: Past, ghost edges: seq<Pins>, ghost first: D.Dev, ghost ticks: nat -> nat)
    returns (n: Registers)
    requires Sound(k, p, edges, first, ticks) && Fair(edges, i) && Agrees(ticks, edges)
    ensures p.chip.service.Valid() && Sound(n, Next(k, n, p, edges, i), edges + [i], first, ticks)
  {
    hide SpiSlave.Registers.Sound, Ch.Sound, Ch.InStep, InTransfer, Fair, Sent, Completed, Levels, Inputs, Arrival, Age,
      Wired, FrameOf, D.Dev.Valid, L.Played, LatchedAfter, FallsAfter, Ch.Next, Ch.Fair, Ch.ServiceNext, Ch.Pending,
      Agrees, Ch.Shows;
    ghost var ls := Levels(edges);
    RestedShows(k, p, edges, first, ticks);
    var spi := SpiSlave.Posedge(k.spi, i.l, Wired(k.chip.fpga.top.tx), ls, p.latched, p.falls);
    ghost var latched := LatchedAfter(ls, i.l, Wired(k.chip.fpga.top.tx), p.latched);
    ghost var falls := FallsAfter(ls, i.l, p.falls);
    SlaveArrival(spi, ls + [i.l], latched, falls);
    var arrival := if spi.rxFrameValid then Some(FrameOf(spi.rxFrame)) else None;
    var pins := Ch.Pins(arrival, i.tick);
    ChipIsFair(k, p, edges, i, first, ticks);
    var chip := Ch.Edge(k.chip, pins, p.chip);
    n := Registers.Registers(spi, chip);
    ChipMoves(k, p, chip, Ch.Next(k.chip, chip, p.chip, pins), edges, i, first, ticks);
    EdgeInputs(edges, i);
    ArrivalsStep(edges, i);
    if Ch.AtLeast(Age(edges), F.GAP) {
      ShownTx(k.chip, L.Played(first, Completed(Sent(ls)), ticks), Ch.Pending(Inputs(edges)));
    }
    TransferMoves(p.latched, edges, i, first, ticks, k.chip.fpga.top.tx);
  }

  lemma {:induction false} ChipIsFair(k: Registers, p: Past, edges: seq<Pins>, i: Pins, first: D.Dev, ticks: nat -> nat)
    requires Sound(k, p, edges, first, ticks) && Fair(edges, i)
    ensures var pins := Ch.Pins(Arrival(Levels(edges) + [i.l]), i.tick);
      p.chip.service.Valid() && Ch.Fair(p.chip.service, pins) && (pins.arrival.Some? ==> !Ch.Early(p.chip.service))
  {
    hide Ch.Sound, Ch.InStep, SpiSlave.Registers.Sound, L.Played, D.Dev.Valid, InTransfer, Sent, Completed, Levels,
      Inputs, Arrival, Ch.Age, Ch.Fair, Ch.Early, Ch.LastIs;
    SoundParts(k, p, edges, first, ticks);
    ArrivalIsSpaced(p.latched, edges, i, first, ticks);
    Ch.FairHere(p.chip, Inputs(edges), Ch.Pins(Arrival(Levels(edges) + [i.l]), i.tick), first);
  }

  lemma {:induction false} ChipMoves(k: Registers, p: Past, chip: Ch.Registers, c: Ch.Past, edges: seq<Pins>,
                                   i: Pins, first: D.Dev, ticks: nat -> nat)
    requires Sound(k, p, edges, first, ticks) && Fair(edges, i)
    requires p.chip.service.Valid()
    requires c == Ch.Next(k.chip, chip, p.chip, Ch.Pins(Arrival(Levels(edges) + [i.l]), i.tick))
    ensures c.service.Valid() && Ch.InStep(c, Inputs(edges + [i]), first)
  {
    hide Ch.Sound, SpiSlave.Registers.Sound, L.Played, D.Dev.Valid, InTransfer, Sent, Completed, Levels, Arrival,
      F.PipePins, Ch.Age, Ch.Arrivals, N.Service.Done, Ch.ServiceNext, Ch.InStep, Ch.Early, Fair;
    ChipIsFair(k, p, edges, i, first, ticks);
    EdgeInputs(edges, i);
    Ch.StepInStep(k.chip.tel, p.chip, c, Inputs(edges), Ch.Pins(Arrival(Levels(edges) + [i.l]), i.tick), first);
  }

  // ----- whole runs -----

  ghost predicate FairRun(edges: seq<Pins>) {
    forall t :: 0 <= t < |edges| ==> FairAt(edges, t)
  }

  ghost predicate FairAt(edges: seq<Pins>, t: nat)
    requires t < |edges|
  {
    Fair(edges[..t], edges[t])
  }

  /** Every transfer reads back the reply that the frame-level device, sent the complete frames of the
      transfers before it, has pending. */
  ghost predicate RepliesRead(first: D.Dev, ticks: nat -> nat, sent: seq<Bits>, got: seq<Bits>) {
    |got| == |sent| && forall k :: 0 <= k < |sent| ==> ReplyRead(first, ticks, sent, got, k)
  }

  ghost predicate ReplyRead(first: D.Dev, ticks: nat -> nat, sent: seq<Bits>, got: seq<Bits>, k: nat)
    requires k < |got| == |sent|
  {
    got[k] == Output(ReplyTo(first, ticks, sent[..k]), |sent[k]|)
  }

  lemma ReadsAreReplies(first: D.Dev, ticks: nat -> nat, reply: seq<Bits> -> Frame, sent: seq<Bits>, got: seq<Bits>)
    requires ReadsBack(reply, sent, got) && forall ts :: reply(ts) == ReplyTo(first, ticks, ts)
    ensures RepliesRead(first, ticks, sent, got)
  {
    hide ReplyTo;
    forall k | 0 <= k < |sent|
      ensures ReplyRead(first, ticks, sent, got, k)
    {
      assert ReadsAt(reply, sent, got, k);
    }
  }

  /** The registers that no reset clears hold zeros at power-up. */
  function AfterReset(mem: seq<B.Word>): Registers
    requires |mem| == B.M_WORDS
  {
    Registers.Registers(SpiSlave.Registers(false, true, 0, 0, Zeros(), Zeros(), false, Zeros(), false),
                        Ch.AfterReset(mem))
  }

  ghost function Initial(mem: seq<B.Word>): Past
    requires |mem| == B.M_WORDS
  {
    Past(Zeros(), 0, Ch.Initial(mem))
  }

  lemma ResetIsSound(mem: seq<B.Word>, ticks: nat -> nat, reply: seq<Bits> -> Frame)
    requires |mem| == B.M_WORDS
    ensures Sound(AfterReset(mem), Initial(mem), [], F.First(mem), ticks)
    ensures Alternates(Levels([]), 0) && ReadsBack(reply, Sent(Levels([])), [])
  {
    hide Ch.Sound, Ch.InStep, Ch.Initial, Ch.AfterReset, F.First, SpiSlave.Registers.Sound;
    Ch.ResetIsSound(mem);
    Ch.NothingYet(mem);
    SlaveAtReset();
  }

  lemma SlaveAtReset()
    ensures SpiSlave.Registers(false, true, 0, 0, Zeros(), Zeros(), false, Zeros(), false).Sound([], Zeros(), 0)
  {
  }

  /** One edge of a run with the master's part of it. */
  method LinkEdge(k: Registers, edges: seq<Pins>, t: nat, got: seq<Bits>, ghost reply: seq<Bits> -> Frame,
                  ghost p: Past, ghost first: D.Dev) returns (n: Registers, got': seq<Bits>)
    requires t < |edges| && FairRun(edges) && Sound(k, p, edges[..t], first, Ch.Ticks(Inputs(edges)))
    requires Alternates(Levels(edges[..t]), p.falls) && ReadsBack(reply, Sent(Levels(edges[..t])), got)
    requires forall ts :: reply(ts) == ReplyTo(first, Ch.Ticks(Inputs(edges)), ts)
    ensures p.chip.service.Valid()
    ensures var p' := Next(k, n, p, edges[..t], edges[t]);
      && Sound(n, p', edges[..t + 1], first, Ch.Ticks(Inputs(edges)))
      && Alternates(Levels(edges[..t + 1]), p'.falls) && ReadsBack(reply, Sent(Levels(edges[..t + 1])), got')
  {
    hide SpiSlave.Registers.Sound, Ch.Sound, Ch.InStep, Sent, Completed, Levels, Inputs, Arrival, Age, ReplyTo,
      ReadsBack, Alternates, D.Dev.Valid, L.Played, Agrees, Ch.LastIs;
    assert FairAt(edges, t);
    PrefixStep(edges, t);
    EdgeInputs(edges[..t], edges[t]);
    TicksAgree(k, p, edges, t, first);
    AlternatesStep(Levels(edges[..t]), edges[t].l, p.falls);
    got' := Sample(k.spi, edges[t].l, got, reply, Levels(edges[..t]), p.latched, p.falls);
    n := Edge(k, edges[t], p, edges[..t], first, Ch.Ticks(Inputs(edges)));
  }

  lemma {:induction false} TicksAgree(k: Registers, p: Past, edges: seq<Pins>, t: nat, first: D.Dev)
    requires t <= |edges| && Sound(k, p, edges[..t], first, Ch.Ticks(Inputs(edges)))
    ensures Agrees(Ch.Ticks(Inputs(edges)), edges[..t])
  {
    hide SpiSlave.Registers.Sound, Ch.Sound, Ch.InStep, Sent, Completed, Levels, Inputs, InTransfer, D.Dev.Valid,
      Ch.TicksBefore, Ch.EarlyIn, Ch.Arrivals;
    PrefixInputs(edges, t);
    if !Ch.EarlyIn(Inputs(edges[..t])) {
      forall n | 0 <= n < |Completed(Sent(Levels(edges[..t])))|
        ensures Ch.TicksBefore(Inputs(edges), n) == Ch.TicksBefore(Inputs(edges[..t]), n)
      {
        Ch.TicksSettle(Inputs(edges), t, n);
      }
    }
  }

  /** For every fair run from reset: what a master that samples the slave's output at each rise of the
      clock reads back, and what the stores hold once the last frame has been served. */
  method RunBoard(mem: seq<B.Word>, edges: seq<Pins>) returns (got: seq<Bits>, k: Registers)
    requires |mem| == B.M_WORDS && FairRun(edges)
    ensures RepliesRead(F.First(mem), Ch.Ticks(Inputs(edges)), Sent(Levels(edges)), got)
    ensures Ch.AtLeast(Age(edges), F.GAP) ==>
      Ch.Shows(k.chip, L.Played(F.First(mem), Completed(Sent(Levels(edges))), Ch.Ticks(Inputs(edges))),
               Ch.Pending(Inputs(edges)))
  {
    hide Sound, FairRun, Sent, Levels, Inputs, Completed, ReplyTo, ReadsBack, Alternates, F.First, AfterReset, Initial,
      RepliesRead, Ch.Shows, Ch.Pending, Ch.TicksBefore, Age, D.Dev.Valid, L.Played, Next, Arrival, Wired;
    ghost var first, ticks := F.First(mem), Ch.Ticks(Inputs(edges));
    ghost var reply := (ts: seq<Bits>) => ReplyTo(first, ticks, ts);
    k := AfterReset(mem);
    ghost var p := Initial(mem);
    got := [];
    ResetIsSound(mem, ticks, reply);
    assert p.falls == 0 by { NoFalls(mem); }
    assert edges[..0] == [];
    for t := 0 to |edges|
      invariant Sound(k, p, edges[..t], first, ticks) && Alternates(Levels(edges[..t]), p.falls)
      invariant ReadsBack(reply, Sent(Levels(edges[..t])), got)
    {
      var n;
      n, got := LinkEdge(k, edges, t, got, reply, p, first);
      p := Next(k, n, p, edges[..t], edges[t]);
      k := n;
    }
    assert edges[..|edges|] == edges;
    ReadsAreReplies(first, ticks, reply, Sent(Levels(edges)), got);
    assert Agrees(ticks, edges) by {
      AgreesWithItself(edges);
    }
    RestedShows(k, p, edges, first, ticks);
  }

  lemma {:induction false} AgreesWithItself(edges: seq<Pins>)
    ensures Agrees(Ch.Ticks(Inputs(edges)), edges)
  {
  }

  lemma NoFalls(mem: seq<B.Word>)
    requires |mem| == B.M_WORDS
    ensures Initial(mem).falls == 0
  {
  }

  // ----- what the bytes say -----

  lemma {:induction false} AllComplete(sent: seq<Bits>)
    requires forall k :: 0 <= k < |sent| ==> |sent[k]| == FRAME_BITS
    ensures |Completed(sent)| == |sent| && forall k :: 0 <= k < |sent| ==> Completed(sent)[k] == FrameOf(sent[k])
  {
    hide FrameOf, FramesIn;
    if sent == [] {
    } else {
      AllComplete(Init(sent));
      HowMany(Last(sent));
      FramesAreGroups(Last(sent), 0);
      assert Last(sent)[0..FRAME_BITS] == Last(sent);
    }
  }

  /** When every transfer is one whole frame, the bytes read in transfer k are the reply of the
      frame-level device that has been sent the k frames before it. */
  lemma {:induction false} WholeTransfers(first: D.Dev, ticks: nat -> nat, sent: seq<Bits>, got: seq<Bits>, k: nat)
    requires first.Valid() && RepliesRead(first, ticks, sent, got)
    requires (forall j :: 0 <= j < |sent| ==> |sent[j]| == FRAME_BITS) && k < |sent|
    ensures |got[k]| == FRAME_BITS
    ensures |Completed(sent[..k])| == k && forall j :: 0 <= j < k ==> Completed(sent[..k])[j] == FrameOf(sent[j])
    ensures FrameOf(got[k]) == L.Played(first, Completed(sent[..k]), ticks).tx
  {
    hide FrameOf, L.Played, Completed;
    assert ReplyRead(first, ticks, sent, got, k);
    AllComplete(sent[..k]);
    var tx := L.Played(first, Completed(sent[..k]), ticks).tx;
    OutputIsFrame(Wired(tx));
    WiredReads(tx);
  }

  lemma OutputIsFrame(f: Frame)
    ensures Output(f, FRAME_BITS) == f
  {
  }

  /** The transfers of the frame-level link are these: what its k-th transfer returns is what the
      master's k-th transfer reads. */
  lemma LinkIsTheBoard(first: D.Dev, ticks: nat -> nat, log: seq<L.Entry>, sent: seq<Bits>, got: seq<Bits>, k: nat)
    requires L.Consecutive(first, ticks, log) && RepliesRead(first, ticks, sent, got)
    requires (forall j :: 0 <= j < |sent| ==> |sent[j]| == FRAME_BITS) && k < |sent| == |log|
    requires forall j :: 0 <= j < |log| ==> log[j].frame == FrameOf(sent[j])
    ensures |got[k]| == FRAME_BITS && L.DevAfter(first, log, k).tx == FrameOf(got[k])
  {
    hide FrameOf, L.Played, Completed, D.Respond, RepliesRead;
    WholeTransfers(first, ticks, sent, got, k);
    L.LogIsPlayed(first, ticks, log, k);
    assert L.FramesOf(log)[..k] == Completed(sent[..k]);
  }
}
