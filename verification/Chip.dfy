/** The whole design behind the SPI slave on clock edges: router, classifier pipeline and telemetry
    together (fpga/src/nids_top.v), against the frame-level device. */
module Chip {
  import opened Words
  import opened Stream
  import opened Wire
  import B = Bloom
  import C = CountMin
  import CC = CmsCore
  import D = Device
  import F = Fpga
  import FT = FlowTable
  import L = Link
  import N = NidsTop
  import P = Classifiers
  import T = Telemetry
  import TC = TelemetryCore

  /** What the SPI slave and the window timer present on one clock edge. */
  datatype Pins = Pins(arrival: Option<Frame>, tick: bool)

  datatype Registers = Registers(fpga: F.Registers, tel: TC.Registers)

  /** A frame has been counted or its query answered this many edges after its arrival. */
  const SERVED := 6

  function TelPins(k: N.Registers, tick: bool): (i: TC.Pins)
    ensures i.tick == tick
  {
    TC.Pins(k.header.src, k.fieldsValid && k.inflightOp == OP_CLASSIFY, k.fieldsValid && k.inflightOp == OP_QUERY, tick)
  }

  function FpgaPins(k: TC.Registers, arrival: Option<Frame>): (i: F.Pins)
    ensures i.arrival == arrival
  {
    F.Pins(arrival, if k.cms.qDone then Some(k.cms.qCount) else None, k.snap, k.hll.harmonicSum, k.hll.zeros)
  }

  // ----- the telemetry's part of a frame's service -----

  /** The telemetry is two edges behind the router. */
  ghost function WorkOf(s: N.Service): TC.Work {
    if s.Serving? && 2 <= s.age < SERVED && s.f[16] == OP_CLASSIFY then
      TC.Counting(D.SourceOf(s.f), s.age - 1, if s.age < 4 then 0 else Counted(s.d.events, D.SourceOf(s.f)))
    else if s.Serving? && 2 <= s.age < SERVED && s.f[16] == OP_QUERY then
      TC.Asking(D.SourceOf(s.f), s.age - 1, if s.age < 4 then 0 else T.After(s.d.events).cms.Query(D.SourceOf(s.f)))
    else TC.Rest
  }

  ghost function Counted(es: seq<Event>, ip: Ip): nat {
    T.After(es).cms.Bump(ip).Query(ip)
  }

  /** How many edges after its arrival a frame reads or counts: windows ending before then precede it. */
  function EarlyAges(f: Frame): nat {
    match f[16]
    case 0x00 => 1
    case 0x01 => 3
    case 0x02 => 1
    case 0x03 => 1
    case _ => 0
  }

  predicate Early(s: N.Service) {
    s.Serving? && s.age < EarlyAges(s.f)
  }

  /** A packet is being counted. */
  predicate InService(s: N.Service) {
    s.Serving? && s.f[16] == OP_CLASSIFY && 1 <= s.age < SERVED
  }

  /** A window that ends early ends before the frame. */
  function Shifted(s: N.Service): (r: N.Service)
    requires s.Valid()
    ensures r.Valid()
  {
    if s.Serving? then s.(d := D.TicksOf(s.d, 1)) else s
  }

  /** What the telemetry has behind it: windows that ended since the frame took effect are pending. */
  ghost function EventsOf(s: N.Service, pending: nat): seq<Event>
    requires s.Valid()
  {
    (if InService(s) || Early(s) then s.d.events else s.Done().events) + C.Quiet(pending)
  }

  predicate NonePending(s: N.Service, pending: nat) {
    s.Serving? && (s.age <= EarlyAges(s.f) || InService(s)) ==> pending == 0
  }

  /** What the machines have behind them, the frame in service and the windows ended since it took effect. */
  datatype Past = Past(pipe: P.Past, ins: seq<TC.Pins>, pulses: seq<CC.Answer>, service: N.Service, pending: nat)

  ghost predicate TelAt(k: TC.Registers, p: Past)
    requires p.service.Valid()
  {
    var s := p.service;
    && k.Sound(p.ins, p.pulses) && TC.Twin(p.ins, EventsOf(s, p.pending), WorkOf(s)) && NonePending(s, p.pending)
    && (s.Serving? && s.f[16] == OP_QUERY ==> (s.answered <==> s.age >= SERVED))
  }

  ghost predicate Sound(k: Registers, p: Past) {
    p.service.Valid() && F.Sound(k.fpga, p.pipe, p.service) && TelAt(k.tel, p)
  }

  /** Frames are far enough apart, and no window ends while a packet is being counted. */
  predicate Fair(s: N.Service, i: Pins) {
    && (i.arrival.Some? && s.Serving? ==> s.age >= F.GAP)
    && (i.tick ==> !InService(s))
  }

  /** The service as a window that ends on this edge finds it. */
  function Found(s: N.Service, i: Pins): (r: N.Service)
    requires s.Valid()
    ensures r.Valid()
  {
    if i.tick && Early(s) then Shifted(s) else s
  }

  /** The windows that end before a frame that arrives on this edge. */
  function Ended(p: Past, i: Pins): nat {
    p.pending + if i.tick && !Early(p.service) then 1 else 0
  }

  ghost function ServiceNext(k: TC.Registers, p: Past, i: Pins): (s: N.Service)
    requires p.service.Valid()
    ensures s.Valid()
  {
    Found(p.service, i).After(F.Seen(Found(p.service, i), FpgaPins(k, i.arrival)), Ended(p, i))
  }

  ghost function Next(k: Registers, n: Registers, p: Past, i: Pins): Past
    requires p.service.Valid()
  {
    Past(p.pipe.Then(n.fpga.cls, F.PipePins(k.fpga.top)), p.ins + [TelPins(k.fpga.top, i.tick)],
         CC.Shown(n.tel.cms, p.pulses), ServiceNext(k.tel, p, i), if i.arrival.Some? then 0 else Ended(p, i))
  }

  /** The clocked telemetry answers as the frame-level one. */
  lemma TelemetryIsHonest(k: TC.Registers, p: Past, i: Pins)
    requires p.service.Valid() && TelAt(k, p) && Fair(p.service, i)
    ensures F.Fair(Found(p.service, i), FpgaPins(k, i.arrival))
  {
    hide TC.Registers.Sound, TC.Twin, TC.Reads, T.After, D.Respond, D.VerdictOn, D.SourceOf, D.Response,
      D.SnapRegisters, C.Sketch.Query, Counted;
    var es := EventsOf(p.service, p.pending);
    TC.TwinReads(k, p.ins, p.pulses, es, WorkOf(p.service));
    EventsServed(p.service);
    if p.service.Serving? {
      QuietMore(p.service.d.events, 0);
    }
    if WorkOf(p.service).Rest? {
      ReadsWhat(k, es);
    }
  }

  lemma {:induction false} ReadsWhat(k: TC.Registers, es: seq<Event>)
    requires TC.Reads(k, es)
    ensures k.snap == D.Response(D.SnapRegisters(es))
    ensures (k.hll.harmonicSum as int, k.hll.zeros as int) == (T.After(es).hll.harmonicSum, T.After(es).hll.zeros)
  {
  }

  // ----- the invariant is kept -----

  lemma QuietMore(es: seq<Event>, n: nat)
    ensures es + C.Quiet(n) + [Tick] == es + C.Quiet(n + 1) && es + C.Quiet(0) == es && es + C.Quiet(1) == es + [Tick]
  {
  }

  /** What serving a frame adds to the events. */
  lemma EventsServed(s: N.Service)
    requires s.Valid()
    ensures s.Done().events
      == if s.Serving? && s.f[16] == OP_CLASSIFY then s.d.events + [Packet(D.SourceOf(s.f))] else s.d.events
  {
    hide D.VerdictOn, D.QueryReply, D.SnapshotReply, D.HllReply, D.Half, D.SourceOf, Ack, BloomReply, ThresholdReply,
      RuleReply, D.WriteThreshold, D.ReadThreshold, FT.Absorb, FT.Bucket;
  }

  /** What the router hands the telemetry: a frame's source one edge after the opcode, and nothing else. */
  predicate Feeds(i: TC.Pins, s: N.Service) {
    && (i.upd <==> s.Serving? && s.age == 1 && s.f[16] == OP_CLASSIFY)
    && (i.ask <==> s.Serving? && s.age == 1 && s.f[16] == OP_QUERY)
    && (i.upd || i.ask ==> i.src == D.SourceOf(s.f))
  }

  lemma TelIsFed(k: N.Registers, s: N.Service, tick: bool)
    requires s.Valid() && N.Sound(k, s)
    ensures Feeds(TelPins(k, tick), s)
  {
    hide N.Sound, D.Respond, D.Parse, D.SourceOf, D.Half;
    N.HandsOn(k, s);
    if s.Serving? {
      N.ParseSource(s.f, s.d.frameCount);
    }
  }

  /** The telemetry's events follow the frame in service. */
  lemma EventsMove(s: N.Service, pending: nat, i: Pins, j: TC.Pins, seen: N.Pins)
    requires s.Valid() && Fair(s, i) && NonePending(s, pending)
    requires Feeds(j, s) && j.tick == i.tick && seen.arrival == i.arrival
    ensures TC.Fair(WorkOf(s), j)
    ensures var ended := pending + if i.tick && !Early(s) then 1 else 0;
      var s', pending' := Found(s, i).After(seen, ended), if i.arrival.Some? then 0 else ended;
      NonePending(s', pending') && EventsOf(s', pending') == TC.EventsNext(EventsOf(s, pending), WorkOf(s), j)
  {
    hide D.Respond, D.VerdictOn, D.SourceOf, EncodeVerdict, T.After, D.Response, D.SnapRegisters, Counted;
    EventsServed(s);
    EventsServed(Found(s, i).After(seen, pending + if i.tick && !Early(s) then 1 else 0));
    QuietMore(s.Done().events, pending);
    if s.Serving? {
      QuietMore(s.d.events, pending);
    }
  }

  /** So does its work. */
  lemma WorkMoves(s: N.Service, i: Pins, j: TC.Pins, seen: N.Pins, ended: nat, sk: C.Sketch)
    requires s.Valid() && Fair(s, i) && Feeds(j, s) && seen.arrival == i.arrival && sk.Valid()
    requires s.Serving? && s.age == 3 && (s.f[16] == OP_CLASSIFY || s.f[16] == OP_QUERY) ==>
      sk == T.After(s.d.events).cms
    ensures WorkOf(Found(s, i).After(seen, ended)) == WorkOf(s).Then(sk, j)
  {
    hide D.Respond, D.VerdictOn, D.SourceOf, EncodeVerdict, T.After, D.Response, D.SnapRegisters, C.Sketch.Bump,
      C.Sketch.Query, D.Dev.Valid;
  }

  /** One edge of the telemetry keeps its part in step with the frame in service. */
  lemma TelMoves(k: TC.Registers, n: TC.Registers, p: Past, p': Past, i: Pins, j: TC.Pins)
    requires p.service.Valid() && TelAt(k, p) && Fair(p.service, i)
    requires Feeds(j, p.service) && j.tick == i.tick && n.Sound(p'.ins, p'.pulses)
    requires p'.ins == p.ins + [j] && p'.service == ServiceNext(k, p, i)
    requires p'.pending == if i.arrival.Some? then 0 else Ended(p, i)
    ensures TelAt(n, p')
  {
    hide TC.Registers.Sound, TC.Twin, D.Respond, D.VerdictOn, D.SourceOf, D.Dev.Valid, N.Service.Done, EncodeVerdict,
      T.After, Feeds, TC.Fair, TC.EventsNext, EventsOf, C.Sketch.Bump, C.Sketch.Query, TC.CmsAfter, Counted;
    var s, es := p.service, EventsOf(p.service, p.pending);
    var seen := F.Seen(Found(s, i), FpgaPins(k, i.arrival));
    TC.TwinReads(k, p.ins, p.pulses, es, WorkOf(s));
    EventsMove(s, p.pending, i, j, seen);
    SketchNow(p);
    WorkMoves(s, i, j, seen, Ended(p, i), TC.CmsAfter(p.ins));
    TC.TwinStep(p.ins, es, WorkOf(s), j);
  }

  /** Before its third edge the sketch is still that of the device that received the frame. */
  lemma SketchNow(p: Past)
    requires p.service.Valid() && NonePending(p.service, p.pending)
    requires TC.Twin(p.ins, EventsOf(p.service, p.pending), WorkOf(p.service))
    ensures var s := p.service;
      s.Serving? && s.age == 3 && (s.f[16] == OP_CLASSIFY || s.f[16] == OP_QUERY) ==>
        TC.CmsAfter(p.ins) == T.After(s.d.events).cms
  {
    hide TC.At, TC.CmsAfter, TC.HllAfter, TC.After, TC.Around, T.After, D.Respond, D.SourceOf, Counted;
    var s := p.service;
    EventsServed(s);
    if s.Serving? {
      QuietMore(s.d.events, 0);
    }
  }

  lemma ServiceIsValid(k: Registers, p: Past)
    requires Sound(k, p)
    ensures p.service.Valid()
  {
  }

  lemma RouterIsSound(k: Registers, p: Past)
    requires Sound(k, p)
    ensures N.Sound(k.fpga.top, p.service)
  {
  }

  /** Router and pipeline do not see an early tick. */
  lemma ShiftIsUnseen(k: F.Registers, p: P.Past, s: N.Service)
    requires s.Valid() && F.Sound(k, p, s) && Early(s) && (s.f[16] == OP_QUERY ==> !s.answered)
    ensures F.Sound(k, p, Shifted(s))
  {
    hide N.Sound, P.At, F.JobOf, F.SeqOf, F.StageOf, FT.Table, D.Respond, D.TicksOf, D.Dev.Valid;
    ShiftedRouter(k.top, s);
    ShiftedJob(s);
  }

  lemma ShiftedJob(s: N.Service)
    requires s.Valid() && Early(s)
    ensures var r := Shifted(s);
      && F.JobOf(r) == F.JobOf(s) && F.SeqOf(r) == F.SeqOf(s) && F.StageOf(r) == F.StageOf(s)
      && r.d.flow == s.d.flow && r.age == s.age < 4 && r.f == s.f && r.answered == s.answered
  {
    hide D.Parse, D.LookupIdx;
  }

  lemma ShiftedRouter(k: N.Registers, s: N.Service)
    requires s.Valid() && N.Sound(k, s) && Early(s) && (s.f[16] == OP_QUERY ==> !s.answered)
    ensures N.Sound(k, Shifted(s))
  {
    hide D.Respond, D.SourceOf, D.Parse, D.Half, D.WriteThreshold, D.ReadThreshold;
    N.TicksKeepStores(s.d, 1);
    N.Effects(s.d, s.f);
    N.Effects(Shifted(s).d, s.f);
  }

  lemma EdgeIsFair(k: Registers, p: Past, i: Pins)
    requires Sound(k, p) && Fair(p.service, i)
    ensures F.Sound(k.fpga, p.pipe, Found(p.service, i)) && F.Fair(Found(p.service, i), FpgaPins(k.tel, i.arrival))
    ensures Feeds(TelPins(k.fpga.top, i.tick), p.service) && TelAt(k.tel, p) && k.tel.Sound(p.ins, p.pulses)
  {
    hide TC.Registers.Sound, TC.Twin, F.Sound, F.Fair, N.Sound, F.Seen, D.Dev.Valid, EventsOf, WorkOf, N.Service.After;
    RouterIsSound(k, p);
    TelIsFed(k.fpga.top, p.service, i.tick);
    TelemetryIsHonest(k.tel, p, i);
    if i.tick && Early(p.service) {
      ShiftIsUnseen(k.fpga, p.pipe, p.service);
    }
  }

  /** One rising clock edge of the whole design out of reset. */
  method Edge(k: Registers, i: Pins, ghost p: Past) returns (n: Registers)
    requires Sound(k, p) && Fair(p.service, i)
    ensures Sound(n, Next(k, n, p, i))
  {
    hide TC.Registers.Sound, TelAt, F.Sound, F.Fair, F.Seen, Fair, Feeds, D.Dev.Valid, TelPins, FpgaPins, F.PipePins,
      P.Past.Then, CC.Shown, N.Service.After, Found;
    EdgeIsFair(k, p, i);
    var fpga := F.Edge(k.fpga, FpgaPins(k.tel, i.arrival), p.pipe, Found(p.service, i), Ended(p, i));
    var tel := TC.Edge(k.tel, TelPins(k.fpga.top, i.tick), p.ins, p.pulses);
    n := Registers(fpga, tel);
    TelMoves(k.tel, tel, p, Next(k, n, p, i), i, TelPins(k.fpga.top, i.tick));
  }

  function AfterReset(mem: seq<B.Word>): Registers
    requires |mem| == B.M_WORDS
  {
    Registers(F.AfterReset(mem), TC.AfterReset())
  }

  ghost function Initial(mem: seq<B.Word>): Past
    requires |mem| == B.M_WORDS
  {
    Past(P.Past(mem, [], [], [], []), [], [], N.Idle(F.First(mem)), 0)
  }

  lemma ResetIsSound(mem: seq<B.Word>)
    requires |mem| == B.M_WORDS
    ensures Sound(AfterReset(mem), Initial(mem))
  {
    hide TC.Registers.Sound, TC.Twin, F.Sound, TC.AfterReset, F.AfterReset;
    F.ResetIsSound(mem);
    TC.ResetIsSound();
    TC.NothingIsTwin();
    assert EventsOf(N.Idle(F.First(mem)), 0) == [];
  }

  // ----- whole runs -----

  /** The frames that have arrived. */
  function Arrivals(ins: seq<Pins>): seq<Frame> {
    if ins == [] then [] else Arrivals(Init(ins)) + if Last(ins).arrival.Some? then [Last(ins).arrival.value] else []
  }

  /** How many edges ago the last frame arrived. */
  function Age(ins: seq<Pins>): Option<nat> {
    if ins == [] then None
    else if Last(ins).arrival.Some? then Some(0)
    else if Age(Init(ins)).Some? then Some(Age(Init(ins)).value + 1)
    else None
  }

  predicate AtLeast(age: Option<nat>, n: nat) {
    age.Some? ==> age.value >= n
  }

  /** The last frame, if any, arrived this many edges ago and has this opcode. */
  predicate LastIs(ins: seq<Pins>, op: nat, from: nat, to: nat) {
    Age(ins).Some? && from <= Age(ins).value < to && Arrivals(ins) != [] && Last(Arrivals(ins))[16] == op
  }

  /** Frames arrive at least GAP edges apart, and no window ends while the packet of a classify frame is
      being counted: on five edges, from the second after its arrival. */
  ghost predicate Spaced(ins: seq<Pins>) {
    forall t :: 0 <= t < |ins| ==> SpacedAt(ins[..t], ins[t])
  }

  ghost predicate SpacedAt(was: seq<Pins>, i: Pins) {
    && (i.arrival.Some? ==> AtLeast(Age(was), F.GAP))
    && (i.tick ==> !LastIs(was, OP_CLASSIFY, 1, SERVED))
  }

  /** The last frame has not taken effect on the telemetry yet. */
  predicate EarlyIn(ins: seq<Pins>) {
    Age(ins).Some? && Arrivals(ins) != [] && Age(ins).value < EarlyAges(Last(Arrivals(ins)))
  }

  /** The number of the frame before which a window ends that ends on the next edge. */
  function Owner(ins: seq<Pins>): nat {
    if EarlyIn(ins) then |Arrivals(ins)| - 1 else |Arrivals(ins)|
  }

  /** The windows that end before frame n, and after the frame before it, take effect. */
  function TicksBefore(ins: seq<Pins>, n: nat): nat {
    if ins == [] then 0
    else TicksBefore(Init(ins), n) + if Last(ins).tick && Owner(Init(ins)) == n then 1 else 0
  }

  function Ticks(ins: seq<Pins>): nat -> nat {
    n => TicksBefore(ins, n)
  }

  /** The windows that have ended since the last frame took effect. */
  function Pending(ins: seq<Pins>): nat {
    TicksBefore(ins, |Arrivals(ins)|)
  }

  lemma {:induction false} EdgeRun(ins: seq<Pins>, i: Pins)
    ensures Arrivals(ins + [i]) == Arrivals(ins) + if i.arrival.Some? then [i.arrival.value] else []
    ensures Age(ins + [i]) == if i.arrival.Some? then Some(0)
      else if Age(ins).Some? then Some(Age(ins).value + 1) else None
    ensures forall n :: TicksBefore(ins + [i], n) == TicksBefore(ins, n) + if i.tick && Owner(ins) == n then 1 else 0
  {
    hide Owner;
    assert Init(ins + [i]) == ins;
  }

  lemma {:induction false} NoneYet(ins: seq<Pins>, n: nat)
    requires n > |Arrivals(ins)|
    ensures TicksBefore(ins, n) == 0
  {
    if ins == [] {
    } else {
      NoneYet(Init(ins), n);
    }
  }

  /** Once the last frame has taken effect, no later window precedes it. */
  lemma {:induction false} OwnersLater(ins: seq<Pins>, t: nat)
    requires t <= |ins| && !EarlyIn(ins[..t])
    ensures |Arrivals(ins[..t])| <= Owner(ins) && |Arrivals(ins[..t])| <= |Arrivals(ins)|
    ensures |Arrivals(ins[..t])| == |Arrivals(ins)| ==> !EarlyIn(ins)
  {
    hide EarlyAges;
    if t == |ins| {
      assert ins[..t] == ins;
    } else {
      var was := Init(ins);
      assert was[..t] == ins[..t] && was + [Last(ins)] == ins;
      OwnersLater(was, t);
      EdgeRun(was, Last(ins));
    }
  }

  lemma {:induction false} TicksSettle(ins: seq<Pins>, t: nat, n: nat)
    requires t <= |ins| && !EarlyIn(ins[..t]) && n < |Arrivals(ins[..t])|
    ensures TicksBefore(ins, n) == TicksBefore(ins[..t], n)
  {
    hide EarlyIn, Owner;
    if t == |ins| {
      assert ins[..t] == ins;
    } else {
      assert Init(ins)[..t] == ins[..t];
      TicksSettle(Init(ins), t, n);
      OwnersLater(Init(ins), t);
    }
  }

  /** The ghost state is that of a run: the frame in service is the last to arrive, and its device the one
      that was sent the frames before it. */
  ghost predicate InStep(p: Past, ins: seq<Pins>, first: D.Dev)
    requires first.Valid() && p.service.Valid()
  {
    var s, fs := p.service, Arrivals(ins);
    && p.pending == Pending(ins)
    && if s.Idle? then s.d == first && fs == [] && Age(ins).None?
       else
         Age(ins) == Some(s.age) && fs != [] && s.f == Last(fs)
         && s.d == D.TicksOf(L.Played(first, Init(fs), Ticks(ins)), TicksBefore(ins, |fs| - 1))
  }

  lemma {:induction false} DoneIsPlayed(p: Past, ins: seq<Pins>, first: D.Dev)
    requires first.Valid() && p.service.Valid() && InStep(p, ins, first)
    ensures p.service.Done() == L.Played(first, Arrivals(ins), Ticks(ins))
    ensures EarlyIn(ins) <==> Early(p.service)
    ensures LastIs(ins, OP_CLASSIFY, 1, SERVED) <==> InService(p.service)
  {
    hide D.Respond, D.TicksOf, TicksBefore, Age, Arrivals;
  }

  lemma TicksAdd(d: D.Dev, n: nat)
    requires d.Valid()
    ensures D.TicksOf(D.TicksOf(d, n), 1) == D.TicksOf(d, n + 1)
  {
    assert d.events + C.Quiet(n) + C.Quiet(1) == d.events + C.Quiet(n + 1);
  }

  /** One edge of a run. */
  lemma StepInStep(k: TC.Registers, p: Past, n: Past, ins: seq<Pins>, i: Pins, first: D.Dev)
    requires first.Valid() && p.service.Valid() && n.service.Valid() && InStep(p, ins, first)
    requires n.service == ServiceNext(k, p, i) && n.pending == if i.arrival.Some? then 0 else Ended(p, i)
    requires i.arrival.Some? ==> !Early(p.service)
    ensures InStep(n, ins + [i], first)
  {
    hide D.Respond, D.TicksOf, D.VerdictOn, EncodeVerdict, L.Played, FpgaPins, TicksBefore, Arrivals, Age, Early,
      EarlyIn, D.Dev.Valid;
    var fs := Arrivals(ins);
    EdgeRun(ins, i);
    DoneIsPlayed(p, ins, first);
    NoneYet(ins, |fs| + 1);
    if i.arrival.Some? {
      L.PlayedSame(first, fs, Ticks(ins), Ticks(ins + [i]));
      assert Init(fs + [i.arrival.value]) == fs;
    } else if p.service.Serving? {
      assert Arrivals(ins + [i]) == fs;
      L.PlayedSame(first, Init(fs), Ticks(ins), Ticks(ins + [i]));
      TicksAdd(L.Played(first, Init(fs), Ticks(ins)), TicksBefore(ins, |fs| - 1));
    }
  }

  lemma FairHere(p: Past, ins: seq<Pins>, i: Pins, first: D.Dev)
    requires first.Valid() && p.service.Valid() && InStep(p, ins, first) && SpacedAt(ins, i)
    ensures Fair(p.service, i) && (i.arrival.Some? ==> !Early(p.service))
  {
    hide Age, L.Played, N.Service.Done, TicksBefore;
    DoneIsPlayed(p, ins, first);
  }

  /** The registers read from outside are those of a frame-level device, after windows that have ended. */
  ghost predicate Shows(k: Registers, d: D.Dev, ended: nat) {
    && k.fpga.top.tx == d.tx && k.fpga.top.Holds(d) && k.fpga.cls.bloom.mem == d.bloom
    && TC.Reads(k.tel, d.events + C.Quiet(ended))
  }

  lemma RestShows(k: Registers, p: Past)
    requires Sound(k, p) && (p.service.Serving? ==> p.service.age >= F.GAP)
    ensures Shows(k, p.service.Done(), p.pending) && F.Rested(p.service)
  {
    hide F.Sound, TC.Registers.Sound, TC.Twin, TC.Reads, D.Respond;
    F.RestedIsDone(k.fpga, p.pipe, p.service);
    TC.TwinReads(k.tel, p.ins, p.pulses, EventsOf(p.service, p.pending), WorkOf(p.service));
  }

  class Chip {
    var k: Registers
    ghost var p: Past

    ghost predicate Valid()
      reads this
    {
      Sound(k, p)
    }

    constructor (mem: seq<B.Word>)
      requires |mem| == B.M_WORDS
      ensures Valid() && p == Initial(mem)
    {
      hide Sound;
      k := AfterReset(mem);
      p := Initial(mem);
      new;
      ResetIsSound(mem);
    }

    /** One rising clock edge out of reset. */
    method Posedge(i: Pins)
      requires Valid() && Fair(p.service, i)
      modifies this
      ensures Valid() && p == Next(old(k), k, old(p), i)
      ensures p.service == ServiceNext(old(k).tel, old(p), i)
      ensures p.pending == if i.arrival.Some? then 0 else Ended(old(p), i)
    {
      hide Sound, Fair, ServiceNext, P.Past.Then, CC.Shown;
      ServiceIsValid(k, p);
      var n := Edge(k, i, p);
      p := Next(k, n, p, i);
      k := n;
    }
  }

  /** For every run whose frames arrive at least GAP edges apart and whose windows do not end on the five
      edges on which a packet is being counted: GAP edges after a frame the reply register, the thresholds,
      the rules, the Bloom words, the frame count, all telemetry registers and both sketches are those of
      the frame-level device that has been sent the frames, whatever they were, with each window ended
      before the frame before whose effect it ended. */
  method RunChip(mem: seq<B.Word>, edges: seq<Pins>) returns (k: Registers)
    requires |mem| == B.M_WORDS && Spaced(edges)
    ensures AtLeast(Age(edges), F.GAP) ==>
      Shows(k, L.Played(F.First(mem), Arrivals(edges), Ticks(edges)), Pending(edges))
  {
    hide Sound, Fair, Next, InStep, Age, Arrivals, Pending, TicksBefore, F.First, Shows, D.Dev.Valid, SpacedAt, Early;
    ghost var first := F.First(mem);
    var chip := new Chip(mem);
    NothingYet(mem);
    for t := 0 to |edges|
      invariant first.Valid() && chip.Valid() && chip.p.service.Valid() && InStep(chip.p, edges[..t], first)
    {
      PrefixStep(edges, t);
      FairHere(chip.p, edges[..t], edges[t], first);
      ghost var tel, was := chip.k.tel, chip.p;
      chip.Posedge(edges[t]);
      StepInStep(tel, was, chip.p, edges[..t], edges[t], first);
    }
    assert edges[..|edges|] == edges;
    k := chip.k;
    RunShows(k, chip.p, edges, first);
  }

  lemma NothingYet(mem: seq<B.Word>)
    requires |mem| == B.M_WORDS
    ensures F.First(mem).Valid() && Initial(mem).service.Valid() && InStep(Initial(mem), [], F.First(mem))
  {
    hide F.First;
  }

  lemma {:induction false} RunShows(k: Registers, p: Past, ins: seq<Pins>, first: D.Dev)
    requires Sound(k, p) && first.Valid() && p.service.Valid() && InStep(p, ins, first)
    ensures AtLeast(Age(ins), F.GAP) ==> Shows(k, L.Played(first, Arrivals(ins), Ticks(ins)), Pending(ins))
  {
    hide F.Sound, TelAt, D.Respond, L.Played, Shows, TicksBefore;
    DoneIsPlayed(p, ins, first);
    if AtLeast(Age(ins), F.GAP) {
      RestShows(k, p);
    }
  }
}
