/** The clocked telemetry (fpga/src/telemetry.v): both sketch cores, the packet total, the running top
    source and the snapshot registers, against the telemetry of module Telemetry. */
module TelemetryCore {
  import opened Words
  import opened Stream
  import opened Wire
  import C = CountMin
  import CC = CmsCore
  import D = Device
  import H = HyperLogLog
  import HC = HllCore
  import T = Telemetry

  /** The inputs of one clock edge: a packet to count, a point query of the same source, and the end of
      a window. */
  datatype Pins = Pins(src: Ip, upd: bool, ask: bool, tick: bool)

  // ----- the specification: what any inputs amount to -----

  function CmsIns(ins: seq<Pins>): seq<CC.Pins> {
    if ins == [] then [] else CmsIns(Init(ins)) + [CmsPins(Last(ins))]
  }

  function HllIns(ins: seq<Pins>): seq<HC.Pins> {
    if ins == [] then [] else HllIns(Init(ins)) + [HllPins(Last(ins))]
  }

  function CmsPins(i: Pins): CC.Pins {
    CC.Pins(i.src, i.upd, i.tick, i.src, i.ask)
  }

  function HllPins(i: Pins): HC.Pins {
    HC.Pins(i.src, i.upd, i.tick)
  }

  /** The sequential sketches. */
  ghost function CmsAfter(ins: seq<Pins>): (s: C.Sketch)
    ensures s.Valid()
  {
    CC.Replay(CC.Linear(CmsIns(ins)))
  }

  ghost function HllAfter(ins: seq<Pins>): (s: H.Hll)
    ensures s.Valid()
  {
    HC.Replay(HC.Linear(HllIns(ins)))
  }

  /** The answer presented after the last edge. */
  ghost function Presented(ins: seq<Pins>): seq<CC.Answer> {
    CC.Presented(CmsIns(ins))
  }

  /** The source of the last packet offered. */
  function Key(ins: seq<Pins>): Ip {
    if ins == [] then 0 else if Last(ins).upd then Last(ins).src else Key(Init(ins))
  }

  /** The registers around the two cores. */
  datatype Wrapper = Wrapper(windowIndex: nat, total: nat, top1Count: nat, top1Key: Ip, snap: SnapResponse) {
    /** A tick latches the window and clears it. */
    function Closed(hll: H.Hll): Wrapper {
      Wrapper(Word16(windowIndex + 1), 0, 0, 0,
              SnapResponse(windowIndex, total, HC.Word48(hll.harmonicSum), HC.Word12(hll.zeros), top1Count, top1Key))
    }

    /** A presented update takes the lead when it is larger. */
    function Led(answer: seq<CC.Answer>, key: Ip): Wrapper {
      if |answer| == 1 && answer[0].Updated? && answer[0].count > top1Count then
        this.(top1Count := answer[0].count, top1Key := key)
      else this
    }

    function Offered(upd: bool): Wrapper {
      if upd then this.(total := Word32(total + 1)) else this
    }
  }

  const RESET := Wrapper(0, 0, 0, 0, SnapResponse(0, 0, 0x800_0000_0000, 2048, 0, 0))

  ghost function After(ins: seq<Pins>): Wrapper {
    if ins == [] then RESET
    else if Last(ins).tick then After(Init(ins)).Closed(HllAfter(Init(ins)))
    else After(Init(ins)).Offered(Last(ins).upd).Led(Presented(Init(ins)), Key(Init(ins)))
  }

  lemma {:induction false} EdgeSpec(ins: seq<Pins>, i: Pins)
    ensures CmsIns(ins + [i]) == CmsIns(ins) + [CmsPins(i)] && HllIns(ins + [i]) == HllIns(ins) + [HllPins(i)]
    ensures Key(ins + [i]) == if i.upd then i.src else Key(ins)
    ensures After(ins + [i]) ==
      if i.tick then After(ins).Closed(HllAfter(ins)) else After(ins).Offered(i.upd).Led(Presented(ins), Key(ins))
  {
    hide HllAfter, Presented;
    assert Init(ins + [i]) == ins;
  }

  // ----- the machine -----

  datatype Registers = Registers(
    cms: CC.Registers, hll: HC.Registers,
    updKey: Ip,                                                 // held across the sketch's pipeline
    windowIndex: nat, total: nat, top1Count: nat, top1Key: Ip,
    snap: SnapResponse)
  {
    function Wrapped(): Wrapper {
      Wrapper(windowIndex, total, top1Count, top1Key, snap)
    }

    /** Every register holds what the inputs amount to; pulses are the answers presented so far. */
    ghost predicate Sound(ins: seq<Pins>, pulses: seq<CC.Answer>) {
      && cms.Sound(CmsIns(ins), pulses) && hll.Sound(HllIns(ins))
      && CC.Pulse(cms) == Presented(ins) && !(cms.updDone && cms.qDone) && updKey == Key(ins) && Wrapped() == After(ins)
    }
  }

  lemma {:induction false} SoundParts(k: Registers, ins: seq<Pins>, pulses: seq<CC.Answer>)
    requires k.Sound(ins, pulses)
    ensures k.cms.Sound(CmsIns(ins), pulses) && k.hll.Sound(HllIns(ins)) && CC.Pulse(k.cms) == Presented(ins)
    ensures k.hll.harmonicSum == HC.Word48(HllAfter(ins).harmonicSum) && k.hll.zeros == HC.Word12(HllAfter(ins).zeros)
    ensures k.updKey == Key(ins) && k.Wrapped() == After(ins)
    ensures k.cms.Memory() == CmsAfter(ins)
  {
    hide CC.Linear, CC.Replay, CC.Answers, HC.Linear, HC.Replay, HC.Word48, HC.Word12, After;
    CC.SoundPresents(k.cms, CmsIns(ins), pulses);
  }

  /** All always-blocks on one rising edge out of reset, whatever the inputs. */
  method Edge(k: Registers, i: Pins, ghost ins: seq<Pins>, ghost pulses: seq<CC.Answer>) returns (n: Registers)
    requires k.Sound(ins, pulses)
    ensures n.Sound(ins + [i], CC.Shown(n.cms, pulses))
  {
    hide CC.Registers.Sound, HC.Registers.Sound, Presented, HllAfter, CmsAfter, After, Key, Registers.Wrapped,
      HC.NeverTorn, HC.Undisturbed, HC.Linear, H.After;
    SoundParts(k, ins, pulses);
    EdgeSpec(ins, i);
    var cms := CC.Edge(k.cms, CmsPins(i), CmsIns(ins), pulses);
    var hll := HC.Edge(k.hll, HllPins(i), HllIns(ins));
    n := Wrap(k, i);
    n := n.(cms := cms, hll := hll);
    Together(k, n, i, ins);
  }

  /** The always-blocks around the cores. */
  method Wrap(k: Registers, i: Pins) returns (n: Registers)
    ensures n.updKey == if i.upd then i.src else k.updKey
    ensures (n.windowIndex, n.total, n.top1Count, n.top1Key) ==
      if i.tick then (Word16(k.windowIndex + 1), 0, 0, 0)
      else
        var lead := k.cms.updDone && k.cms.updCount > k.top1Count;
        (k.windowIndex, if i.upd then Word32(k.total + 1) else k.total,
         if lead then k.cms.updCount else k.top1Count, if lead then k.updKey else k.top1Key)
    ensures n.snap == if i.tick then
        SnapResponse(k.windowIndex, k.total, k.hll.harmonicSum, k.hll.zeros, k.top1Count, k.top1Key)
      else k.snap
  {
    hide Word16, Word32;
    n := k;
    if i.upd {
      n := n.(updKey := i.src);
    }
    if i.tick {
      n := n.(snap := SnapResponse(k.windowIndex, k.total, k.hll.harmonicSum, k.hll.zeros, k.top1Count, k.top1Key));
      n := n.(windowIndex := Word16(k.windowIndex + 1), total := 0, top1Count := 0, top1Key := 0);
    } else {
      if i.upd {
        n := n.(total := Word32(k.total + 1));
      }
      if k.cms.updDone && k.cms.updCount > k.top1Count {
        n := n.(top1Count := k.cms.updCount, top1Key := k.updKey);
      }
    }
  }

  lemma {:induction false} Together(k: Registers, n: Registers, i: Pins, ins: seq<Pins>)
    requires k.hll.harmonicSum == HC.Word48(HllAfter(ins).harmonicSum) && k.hll.zeros == HC.Word12(HllAfter(ins).zeros)
    requires CC.Pulse(k.cms) == Presented(ins) && k.updKey == Key(ins) && k.Wrapped() == After(ins)
    requires (n.windowIndex, n.total, n.top1Count, n.top1Key) ==
      if i.tick then (Word16(k.windowIndex + 1), 0, 0, 0)
      else
        var lead := k.cms.updDone && k.cms.updCount > k.top1Count;
        (k.windowIndex, if i.upd then Word32(k.total + 1) else k.total,
         if lead then k.cms.updCount else k.top1Count, if lead then k.updKey else k.top1Key)
    requires n.snap == if i.tick then
        SnapResponse(k.windowIndex, k.total, k.hll.harmonicSum, k.hll.zeros, k.top1Count, k.top1Key)
      else k.snap
    requires CC.Pulse(n.cms) == CC.Presented(CmsIns(ins) + [CmsPins(i)])
    ensures n.Wrapped() == After(ins + [i]) && CC.Pulse(n.cms) == Presented(ins + [i])
  {
    EdgeSpec(ins, i);
    hide After, HllAfter, Key, Word16, Word32, HC.Word48, HC.Word12, CmsIns, CC.Presented;
  }

  function AfterReset(): Registers {
    Registers(CC.AfterReset(), HC.AfterReset(), 0, 0, 0, 0, 0, RESET.snap)
  }

  lemma ResetIsSound()
    ensures AfterReset().Sound([], [])
  {
    hide CC.Registers.Sound, HC.Registers.Sound;
  }

  /** The estimates that the sketch answers to the point queries, in order. */
  ghost function Estimates(ins: seq<Pins>): seq<nat> {
    if ins == [] then []
    else
      Estimates(Init(ins))
      + var p := Presented(ins); if |p| == 1 && p[0].Queried? then [p[0].count] else []
  }

  class TelemetryCore {
    var k: Registers
    ghost var ins: seq<Pins>             // the inputs so far
    ghost var pulses: seq<CC.Answer>     // the answers presented so far

    ghost predicate Valid()
      reads this
    {
      k.Sound(ins, pulses)
    }

    constructor ()
      ensures Valid() && ins == []
    {
      hide Registers.Sound;
      k := AfterReset();
      ins, pulses := [], [];
      new;
      ResetIsSound();
    }

    /** One rising clock edge out of reset. */
    method Posedge(i: Pins)
      requires Valid()
      modifies this
      ensures Valid() && ins == old(ins) + [i]
    {
      hide Registers.Sound;
      k := Edge(k, i, ins, pulses);
      ins, pulses := ins + [i], CC.Shown(k.cms, pulses);
    }
  }

  /** For every input sequence from reset, however packets, queries and ticks collide: all registers hold
      what the specification says, and the queries are answered in order. */
  method RunTelemetry(edges: seq<Pins>) returns (k: Registers, estimates: seq<nat>)
    ensures k.Wrapped() == After(edges) && k.cms.Memory() == CmsAfter(edges)
    ensures k.hll.Holds(HllAfter(edges)) && estimates == Estimates(edges)
  {
    hide Registers.Sound, Registers.Wrapped, AfterReset, Presented, CmsAfter, HllAfter, After;
    var telemetry := new TelemetryCore();
    estimates := [];
    for t := 0 to |edges|
      invariant telemetry.Valid() && telemetry.ins == edges[..t] && estimates == Estimates(edges[..t])
    {
      PrefixStep(edges, t);
      assert Init(edges[..t + 1]) == edges[..t];
      telemetry.Posedge(edges[t]);
      PulseIsPresented(telemetry.k, edges[..t + 1], telemetry.pulses);
      if telemetry.k.cms.qDone {
        estimates := estimates + [telemetry.k.cms.qCount];
      }
    }
    assert edges[..|edges|] == edges;
    k := telemetry.k;
    SoundParts(k, edges, telemetry.pulses);
    HllHolds(k, edges, telemetry.pulses);
  }

  lemma PulseIsPresented(k: Registers, ins: seq<Pins>, pulses: seq<CC.Answer>)
    requires k.Sound(ins, pulses)
    ensures CC.Pulse(k.cms) == Presented(ins) && !(k.cms.updDone && k.cms.qDone)
  {
    hide CC.Registers.Sound, HC.Registers.Sound;
  }

  lemma HllHolds(k: Registers, ins: seq<Pins>, pulses: seq<CC.Answer>)
    requires k.Sound(ins, pulses)
    ensures k.hll.Holds(HllAfter(ins))
  {
  }

  // ----- packets are conserved, but for those offered on the edge of a tick -----

  function Packets(ins: seq<Pins>): nat {
    if ins == [] then 0 else Packets(Init(ins)) + if Last(ins).upd then 1 else 0
  }

  /** The packets offered on the very edge that ends a window. */
  function Coinciding(ins: seq<Pins>): nat {
    if ins == [] then 0 else Coinciding(Init(ins)) + if Last(ins).upd && Last(ins).tick then 1 else 0
  }

  /** The sum of the totals that the snapshots have latched. */
  ghost function Latched(ins: seq<Pins>): nat {
    if ins == [] then 0
    else Latched(Init(ins)) + if Last(ins).tick then After(ins).snap.total else 0
  }

  /** Over any inputs, latched totals and current total account for every packet but the coinciding ones. */
  lemma {:induction false} TotalsMissCoinciding(ins: seq<Pins>)
    ensures Word32(Latched(ins) + After(ins).total + Coinciding(ins)) == Word32(Packets(ins))
  {
    hide HllAfter, Presented, Key, Word32, HC.Word48, HC.Word12, Word16;
    if ins == [] {
    } else {
      var was, w := Init(ins), After(Init(ins));
      TotalsMissCoinciding(was);
      Word32Add(w.total + 1, Latched(was) + Coinciding(was));
      Word32Add(Latched(was) + w.total + Coinciding(was), 1);
      Word32Add(Packets(was), 1);
    }
  }

  /** No packet is lost from the totals exactly when none is offered on the edge of a tick. */
  lemma {:induction false} NoneIsLostIff(ins: seq<Pins>)
    requires Coinciding(ins) < TWO32
    ensures Word32(Latched(ins) + After(ins).total) == Word32(Packets(ins)) <==>
      forall i <- ins :: !(i.upd && i.tick)
  {
    hide After;
    TotalsMissCoinciding(ins);
    SmallShift(Latched(ins) + After(ins).total, Coinciding(ins));
    NoneCoincides(ins);
  }

  lemma SmallShift(x: nat, d: nat)
    requires d < TWO32
    ensures Word32(x + d) == Word32(x) <==> d == 0
  {
  }

  lemma {:induction false} NoneCoincides(ins: seq<Pins>)
    ensures Coinciding(ins) == 0 <==> forall i <- ins :: !(i.upd && i.tick)
  {
    if ins == [] {
    } else {
      NoneCoincides(Init(ins));
      assert forall i :: i in ins <==> i in Init(ins) || i == Last(ins);
    }
  }

  // ----- what the cores are busy with, when operations do not overlap -----

  /** A packet is in service for five edges, a query for four; age counts those since its acceptance, and
      due is its answer from the third on. */
  datatype Work = Rest | Counting(ip: Ip, age: nat, due: nat) | Asking(ip: Ip, age: nat, due: nat) {
    predicate Valid() {
      Rest? || 1 <= age <= 4
    }

    ghost function Then(s: C.Sketch, i: Pins): Work
      requires s.Valid()
    {
      match this
      case Rest => if i.upd then Counting(i.src, 1, 0) else if i.ask then Asking(i.src, 1, 0) else Rest
      case Counting(ip, a, due) =>
        if a >= 4 then Rest else Counting(ip, a + 1, if a == 2 then s.Bump(ip).Query(ip) else due)
      case Asking(ip, a, due) => if a >= 4 then Rest else Asking(ip, a + 1, if a == 2 then s.Query(ip) else due)
    }

    function Answer(): seq<CC.Answer> {
      match this
      case Rest => []
      case Counting(_, _, due) => [CC.Updated(due)]
      case Asking(_, _, due) => [CC.Queried(due)]
    }
  }

  /** One edge of the sketches: a packet is counted on its third, and ranked on its fifth, before a tick. */
  ghost function CmsNext(s: C.Sketch, w: Work, i: Pins): (t: C.Sketch)
    requires s.Valid()
    ensures t.Valid()
  {
    var s := if w.Counting? && w.age == 2 then s.Bump(w.ip) else s;
    if i.tick then s.Tick() else s
  }

  ghost function HllNext(s: H.Hll, w: Work, i: Pins): (t: H.Hll)
    requires s.Valid()
    ensures t.Valid()
  {
    if w.Counting? && w.age == 4 then (if i.tick then HC.Tear(s, w.ip) else s.Touch(w.ip))
    else if i.tick then s.Tick()
    else s
  }

  /** No operation is offered while another is in service. */
  predicate Alone(w: Work, i: Pins) {
    (i.upd || i.ask ==> w.Rest?) && !(i.upd && i.ask)
  }

  ghost predicate CmsAt(ins: seq<CC.Pins>, w: Work) {
    && CC.Busy(ins) == (if w.Rest? || w.age == 4 then 0 else w.age)
    && (CC.Busy(ins) > 0 ==> CC.Accepted(ins) == if w.Counting? then CC.Upd(w.ip) else CC.Qry(w.ip))
    && CC.Awaited(ins) == (if !w.Rest? && w.age == 3 then w.Answer() else [])
    && CC.Presented(ins) == (if !w.Rest? && w.age == 4 then w.Answer() else [])
  }

  ghost predicate HllAt(ins: seq<HC.Pins>, w: Work) {
    && HC.Busy(ins) == (if w.Counting? then w.age else 0)
    && (w.Counting? ==> HC.Accepted(ins) == w.ip)
  }

  /** Both cores are at this work. */
  ghost predicate At(ins: seq<Pins>, w: Work) {
    w.Valid() && CmsAt(CmsIns(ins), w) && HllAt(HllIns(ins), w) && (w.Counting? ==> Key(ins) == w.ip)
  }

  lemma {:induction false} CmsStep(ins: seq<CC.Pins>, w: Work, i: Pins)
    requires w.Valid() && CmsAt(ins, w) && Alone(w, i)
    ensures CmsAt(ins + [CmsPins(i)], w.Then(CC.Replay(CC.Linear(ins)), i))
    ensures CC.Replay(CC.Linear(ins + [CmsPins(i)])) == CmsNext(CC.Replay(CC.Linear(ins)), w, i)
  {
    hide CC.Linear, CC.Replay, CC.Accepted, CC.Busy, CC.Awaited, CC.Presented, C.Sketch.Bump, C.Sketch.Query,
      C.Sketch.Tick;
    CC.EdgeSchedule(ins, CmsPins(i));
    CC.EdgeEffect(ins, CmsPins(i));
    CC.AwaitedStep(ins, CmsPins(i));
  }

  lemma {:induction false} HllStep(ins: seq<HC.Pins>, w: Work, i: Pins, s: C.Sketch)
    requires w.Valid() && s.Valid() && HllAt(ins, w) && Alone(w, i)
    ensures HllAt(ins + [HllPins(i)], w.Then(s, i))
    ensures HC.Replay(HC.Linear(ins + [HllPins(i)])) == HllNext(HC.Replay(HC.Linear(ins)), w, i)
  {
    hide HC.Linear, HC.Replay, HC.Accepted, HC.Busy, H.Hll.Touch, H.Hll.Tick, HC.Tear, C.Sketch.Bump, C.Sketch.Query;
    HC.EdgeSchedule(ins, HllPins(i));
    HC.EdgeEffect(ins, HllPins(i));
  }

  /** One edge of both cores, with or without a tick. */
  lemma CoreStep(ins: seq<Pins>, w: Work, i: Pins)
    requires At(ins, w) && Alone(w, i)
    ensures At(ins + [i], w.Then(CmsAfter(ins), i))
    ensures CmsAfter(ins + [i]) == CmsNext(CmsAfter(ins), w, i) && HllAfter(ins + [i]) == HllNext(HllAfter(ins), w, i)
  {
    hide CmsAt, HllAt, CC.Linear, CC.Replay, HC.Linear, HC.Replay, C.Sketch.Bump, C.Sketch.Query, CmsNext, HllNext;
    EdgeSpec(ins, i);
    CmsStep(CmsIns(ins), w, i);
    HllStep(HllIns(ins), w, i, CmsAfter(ins));
  }

  // ----- the sequential telemetry -----

  /** The wrapper's registers between a twin's events; the total runs ahead of a packet in service. */
  function Around(t: T.Tel, w: Work): Wrapper {
    Wrapper(t.windowIndex, Word32(t.totalPackets + if w.Counting? then 1 else 0), t.top1Count, t.top1Key,
            D.Response(D.LatchedBy(t)))
  }

  /** All registers are those of the sequential telemetry after these events, but for the packet in service. */
  ghost predicate Twin(ins: seq<Pins>, es: seq<Event>, w: Work) {
    var t := T.After(es);
    && At(ins, w) && HllAfter(ins) == t.hll && After(ins) == Around(t, w)
    && if w.Counting? && w.age >= 3 then CmsAfter(ins) == t.cms.Bump(w.ip) && w.due == t.cms.Bump(w.ip).Query(w.ip)
       else CmsAfter(ins) == t.cms
  }

  /** Operations do not overlap, and no window ends while a packet is in service or being offered. */
  predicate Fair(w: Work, i: Pins) {
    Alone(w, i) && (i.tick ==> !w.Counting? && !i.upd)
  }

  /** The events that are over after one more edge. */
  function EventsNext(es: seq<Event>, w: Work, i: Pins): seq<Event> {
    if w.Counting? && w.age >= 4 then es + [Packet(w.ip)] else if i.tick then es + [Tick] else es
  }

  lemma {:induction false} TelAppend(es: seq<Event>, ip: Ip)
    ensures T.After(es + [Packet(ip)]) == T.After(es).Packet(ip) && T.After(es + [Tick]) == T.After(es).Tick()
    ensures T.After(es + [Packet(ip)] + [Tick]) == T.After(es).Packet(ip).Tick()
    ensures T.After(es + [Tick] + [Packet(ip)]) == T.After(es).Tick().Packet(ip)
  {
    hide T.Tel.Packet, T.Tel.Tick;
    assert Init(es + [Packet(ip)]) == es && Init(es + [Tick]) == es;
    assert Init(es + [Packet(ip)] + [Tick]) == es + [Packet(ip)] && Init(es + [Tick] + [Packet(ip)]) == es + [Tick];
  }

  /** The aggregates of every reachable telemetry fit their registers. */
  lemma {:induction false} AggregatesFit(es: seq<Event>)
    ensures var s := T.After(es).hll;
      && 0 <= s.harmonicSum && 0 <= s.zeros
      && HC.Word48(s.harmonicSum) == s.harmonicSum && HC.Word12(s.zeros) == s.zeros
  {
    hide T.After, H.After;
    T.Components(es);
    H.AggregatesInRange(es);
    HC.WordsFit(T.After(es).hll.harmonicSum, T.After(es).hll.zeros);
  }

  /** A tick latches the twin's snapshot. */
  lemma ClosedIsTick(t: T.Tel)
    requires HC.Word48(t.hll.harmonicSum) == t.hll.harmonicSum && HC.Word12(t.hll.zeros) == t.hll.zeros
    ensures Around(t, Rest).Closed(t.hll) == Around(t.Tick(), Rest)
  {
    hide HC.Word48, HC.Word12, Word16, C.Sketch.Tick, H.Hll.Tick;
  }

  /** The fifth edge of a packet completes the wrapper's part. */
  lemma LedIsPacket(t: T.Tel, ip: Ip, due: nat)
    requires t.Valid() && due == t.cms.Bump(ip).Query(ip)
    ensures Around(t, Counting(ip, 4, due)).Led([CC.Updated(due)], ip) == Around(t.Packet(ip), Rest)
  {
    hide C.Sketch.Bump, C.Sketch.Query, C.Sketch.Valid, H.Hll.Touch, H.Hll.Valid, Word32, D.Response;
  }

  lemma TwinStep(ins: seq<Pins>, es: seq<Event>, w: Work, i: Pins)
    requires Twin(ins, es, w) && Fair(w, i)
    ensures Twin(ins + [i], EventsNext(es, w, i), w.Then(CmsAfter(ins), i))
  {
    hide At, Presented, T.After, C.Sketch.Bump, C.Sketch.Query, C.Sketch.Tick, C.Sketch.Valid, H.Hll.Touch, H.Hll.Tick,
      H.Hll.Valid, HC.Tear, CmsAfter, HllAfter, Word16, Word32, D.Response, D.LatchedBy, Key, Wrapper.Closed;
    WorkIsValid(ins, w);
    CoreStep(ins, w, i);
    EdgeSpec(ins, i);
    var t := T.After(es);
    Word32Next(t.totalPackets);
    TelAppend(es, if w.Rest? then 0 else w.ip);
    PresentedAt(ins, w);
    if i.tick {
      AggregatesFit(es);
      ClosedIsTick(t);
    } else if w.Counting? && w.age == 4 {
      LedIsPacket(t, w.ip, w.due);
    }
  }

  lemma {:induction false} PresentedAt(ins: seq<Pins>, w: Work)
    requires At(ins, w)
    ensures Presented(ins) == if !w.Rest? && w.age == 4 then w.Answer() else []
    ensures w.Counting? ==> Key(ins) == w.ip
  {
  }

  /** Every register that is read from outside, and both sketches, are the sequential telemetry's. */
  ghost predicate Reads(k: Registers, es: seq<Event>) {
    var t := T.After(es);
    k.Wrapped() == Around(t, Rest) && k.cms.Memory() == t.cms && k.hll.Memory() == t.hll
  }

  lemma TwinReads(k: Registers, ins: seq<Pins>, pulses: seq<CC.Answer>, es: seq<Event>, w: Work)
    requires k.Sound(ins, pulses) && Twin(ins, es, w)
    ensures !w.Counting? ==> Reads(k, es)
    ensures if w.Asking? && w.age == 4 then k.cms.qDone && k.cms.qCount == w.due else !k.cms.qDone
  {
    hide T.After, CC.Registers.Sound, HC.Registers.Sound, CmsAfter, HllAfter, After, Registers.Wrapped, At, Key,
      HC.Word48, HC.Word12, C.Sketch.Bump, C.Sketch.Query, Presented;
    SoundParts(k, ins, pulses);
    PulseIsPresented(k, ins, pulses);
    PresentedAt(ins, w);
    HllHolds(k, ins, pulses);
    AggregatesFit(es);
  }

  ghost function WorkAfter(edges: seq<Pins>): Work {
    if edges == [] then Rest else WorkAfter(Init(edges)).Then(CmsAfter(Init(edges)), Last(edges))
  }

  /** The packets and ticks that are over, in order. */
  ghost function EventsAfter(edges: seq<Pins>): seq<Event> {
    if edges == [] then [] else EventsNext(EventsAfter(Init(edges)), WorkAfter(Init(edges)), Last(edges))
  }

  ghost predicate FairRun(edges: seq<Pins>) {
    edges == [] || (FairRun(Init(edges)) && Fair(WorkAfter(Init(edges)), Last(edges)))
  }

  lemma NothingIsTwin()
    ensures Twin([], [], Rest)
  {
    hide C.Fresh, H.Fresh, HC.Word48, HC.Word12;
    NothingHappened();
    CC.AtStart();
    HC.StartsIdle();
    HC.NothingSeen();
  }

  lemma NothingHappened()
    ensures CmsIns([]) == [] && HllIns([]) == [] && After([]) == Around(T.Fresh(), Rest) && T.After([]) == T.Fresh()
  {
  }

  /** For every run in which packets and queries leave each other the edges they need and no window ends
      while a packet is in service: all registers are those of the sequential telemetry. */
  lemma {:induction false} FairIsTwin(edges: seq<Pins>)
    requires FairRun(edges)
    ensures Twin(edges, EventsAfter(edges), WorkAfter(edges))
  {
    hide Twin, Fair, CmsAfter;
    if edges == [] {
      NothingIsTwin();
    } else {
      FairIsTwin(Init(edges));
      TwinStep(Init(edges), EventsAfter(Init(edges)), WorkAfter(Init(edges)), Last(edges));
      assert Init(edges) + [Last(edges)] == edges;
    }
  }

  /** What the sequential telemetry answers to the queries, each on the third edge of its service. */
  ghost function Asked(edges: seq<Pins>): seq<nat> {
    if edges == [] then []
    else
      var was, w := Init(edges), WorkAfter(Init(edges));
      Asked(was) + if w.Asking? && w.age == 2 then [T.After(EventsAfter(was)).cms.Query(w.ip)] else []
  }

  /** The answer that a query in service still has to present. */
  function Outstanding(w: Work): seq<nat> {
    if w.Asking? && w.age == 3 then [w.due] else []
  }

  lemma {:induction false} EstimatesAreAsked(edges: seq<Pins>)
    requires FairRun(edges)
    ensures Asked(edges) == Estimates(edges) + Outstanding(WorkAfter(edges))
  {
    hide Fair, CmsAfter, T.After, EventsAfter, C.Sketch.Query, C.Sketch.Bump, Presented, At, HllAfter, After, Around;
    if edges == [] {
    } else {
      var was := Init(edges);
      EstimatesAreAsked(was);
      FairIsTwin(was);
      FairIsTwin(edges);
      PresentedAt(edges, WorkAfter(edges));
    }
  }

  // ----- windows that end while a packet is in service -----

  predicate Idle(i: Pins) {
    !i.upd && !i.ask && !i.tick
  }

  /** The rest of a packet's service. */
  lemma {:induction false} QuietServes(ins: seq<Pins>, w: Work, quiet: seq<Pins>)
    requires At(ins, w) && w.Counting? && |quiet| == 5 - w.age && forall i <- quiet :: Idle(i)
    ensures var f, s := ins + quiet, CmsAfter(ins);
      && At(f, Rest) && CmsAfter(f) == (if w.age <= 2 then s.Bump(w.ip) else s)
      && HllAfter(f) == HllAfter(ins).Touch(w.ip)
      && After(f) == After(ins).Led([CC.Updated(if w.age <= 2 then s.Bump(w.ip).Query(w.ip) else w.due)], w.ip)
    decreases |quiet|
  {
    hide CmsAfter, HllAfter, At, Presented, Key, C.Sketch.Bump, C.Sketch.Query, H.Hll.Touch, HC.Tear;
    WorkIsValid(ins, w);
    var i := quiet[0];
    assert i in quiet;
    CoreStep(ins, w, i);
    EdgeSpec(ins, i);
    PresentedAt(ins, w);
    if w.age < 4 {
      QuietServes(ins + [i], w.Then(CmsAfter(ins), i), quiet[1..]);
      assert ins + [i] + quiet[1..] == ins + quiet;
    } else {
      assert ins + quiet == ins + [i];
    }
  }

  lemma WorkIsValid(ins: seq<Pins>, w: Work)
    requires At(ins, w)
    ensures w.Valid()
  {
  }

  /** A tick on the edge that accepts a packet, or on one of the four after it. */
  predicate Collides(w: Work, i: Pins) {
    i.tick && !i.ask && ((w.Rest? && i.upd) || (w.Counting? && !i.upd))
  }

  /** How many edges before the tick's the packet was accepted. */
  function Lag(w: Work): nat {
    if w.Rest? then 0 else w.age
  }

  function Served(w: Work, i: Pins): Ip {
    if w.Rest? then i.src else w.ip
  }

  // What a tick at a packet's age (0 to 4) leaves once the packet has been served.

  /** The sketch counts the packet in the new window up to age 1, in the closed one from age 2. */
  ghost function CmsLeft(s: C.Sketch, ip: Ip, age: nat): (r: C.Sketch)
    requires s.Valid()
    ensures r.Valid()
  {
    if age <= 1 then s.Tick().Bump(ip) else s.Bump(ip).Tick()
  }

  /** The ranks follow only at age 4, where they may tear. */
  ghost function HllLeft(s: H.Hll, ip: Ip, age: nat): (r: H.Hll)
    requires s.Valid()
    ensures r.Valid()
  {
    if age <= 3 then s.Tick().Touch(ip) else HC.Tear(s, ip)
  }

  /** The estimate with which the packet's source takes the lead of the new window: the new window's up to
      age 1, the closed one's at ages 2 and 3, and none at age 4. */
  ghost function LeadLeft(s: C.Sketch, ip: Ip, age: nat): seq<CC.Answer>
    requires s.Valid()
  {
    if age >= 4 then [] else [CC.Updated(if age <= 1 then CmsLeft(s, ip, age).Query(ip) else s.Bump(ip).Query(ip))]
  }

  /** The whole state left: the closed window's total has the packet from age 1, the new one's never has. */
  lemma {:induction false} TickDuringService(ins: seq<Pins>, es: seq<Event>, w: Work, i: Pins, quiet: seq<Pins>)
    requires Twin(ins, es, w) && w.Valid() && Collides(w, i)
    requires |quiet| == 4 - Lag(w) && forall q <- quiet :: Idle(q)
    ensures var f, t, ip := ins + [i] + quiet, T.After(es), Served(w, i);
      && At(f, Rest) && CmsAfter(f) == CmsLeft(t.cms, ip, Lag(w)) && HllAfter(f) == HllLeft(t.hll, ip, Lag(w))
      && After(f) == Around(t, w).Closed(t.hll).Led(LeadLeft(t.cms, ip, Lag(w)), ip)
  {
    hide CmsAfter, HllAfter, At, T.After, Presented, Key, C.Sketch.Bump, C.Sketch.Query, C.Sketch.Tick, H.Hll.Touch,
      H.Hll.Tick, HC.Tear, Around, Wrapper.Closed, Wrapper.Led;
    CoreStep(ins, w, i);
    EdgeSpec(ins, i);
    var n := w.Then(CmsAfter(ins), i);
    if Lag(w) < 4 {
      QuietServes(ins + [i], n, quiet);
    } else {
      assert ins + [i] + quiet == ins + [i];
      NobodyLeads(After(ins + [i]), Served(w, i));
    }
  }

  lemma NobodyLeads(x: Wrapper, ip: Ip)
    ensures x.Led([], ip) == x
  {
  }

  // ----- when that is the sequential telemetry -----

  /** The packet in service takes the lead. */
  predicate Leads(t: T.Tel, ip: Ip)
    requires t.Valid()
  {
    t.cms.Bump(ip).Query(ip) > t.top1Count
  }

  lemma CountedOnce(s: C.Sketch, ip: Ip)
    requires s.Valid()
    ensures s.Bump(ip).Query(ip) > 0
  {
    var j :| 0 <= j < C.ROWS && s.Bump(ip).Query(ip) == s.Bump(ip).At(ip, j);
  }

  /** The leader that the new window starts with: never that of the packet first and then the tick, nobody,
      but at age 4; that of the tick first exactly up to age 1, or when both windows estimate alike. */
  lemma {:induction false} NextLeader(ins: seq<Pins>, es: seq<Event>, w: Work, i: Pins, quiet: seq<Pins>)
    requires Twin(ins, es, w) && w.Valid() && Collides(w, i)
    requires |quiet| == 4 - Lag(w) && forall q <- quiet :: Idle(q)
    ensures var f, t, ip, a := After(ins + [i] + quiet), T.After(es), Served(w, i), Lag(w);
      var closed, renewed := t.cms.Bump(ip).Query(ip), CmsLeft(t.cms, ip, 0).Query(ip);
      var first, last := T.After(es + [Packet(ip)] + [Tick]), T.After(es + [Tick] + [Packet(ip)]);
      && (f.top1Count, f.top1Key) == (if a <= 1 then (renewed, ip) else if a <= 3 then (closed, ip) else (0, 0))
      && ((f.top1Count, f.top1Key) == (first.top1Count, first.top1Key) <==> a == 4)
      && ((f.top1Count, f.top1Key) == (last.top1Count, last.top1Key) <==> a <= 1 || (a <= 3 && closed == renewed))
  {
    hide At, CmsAfter, HllAfter, After, T.After, C.Sketch.Bump, C.Sketch.Query, C.Sketch.Tick, H.Hll.Touch, H.Hll.Tick,
      HC.Tear, Word32, Word16, D.Response, D.LatchedBy, C.Sketch.Valid, H.Hll.Valid, Twin, HllLeft;
    TickDuringService(ins, es, w, i, quiet);
    var t, ip := T.After(es), Served(w, i);
    TelAppend(es, ip);
    CountedOnce(t.cms, ip);
    TickIsValid(t.cms);
    CountedOnce(t.cms.Tick(), ip);
  }

  lemma TickIsValid(s: C.Sketch)
    requires s.Valid()
    ensures s.Tick().Valid()
  {
  }

  /** The aggregates move exactly with a register. */
  lemma {:induction false} SumMovesIff(es: seq<Event>, ip: Ip)
    ensures var s := T.After(es).hll;
      && 0 <= s.harmonicSum && 0 <= s.zeros && 0 <= s.Touch(ip).harmonicSum && 0 <= s.Touch(ip).zeros
      && (s.Touch(ip).harmonicSum == s.harmonicSum <==> !s.Raises(ip))
      && (!s.Raises(ip) ==> s.Touch(ip) == s)
  {
    hide T.After, H.After, H.IpRank, H.Bucket, H.Term;
    T.Components(es);
    HC.AfterAppend(es, ip);
    H.AggregatesInRange(es);
    H.AggregatesInRange(es + [Packet(ip)]);
    var s := H.After(es);
    if s.Raises(ip) {
      HC.TermsShrink(H.IpRank(ip), s.Live(H.Bucket(ip)));
    }
  }

  lemma Word32Moves(x: nat)
    ensures Word32(x + 1) != Word32(x)
  {
  }

  /** The snapshot latched is that of the packet first exactly from age 1, when the packet changes no
      register and does not take the lead; that of the tick first exactly at age 0. */
  lemma {:induction false} SnapshotDuringService(ins: seq<Pins>, es: seq<Event>, w: Work, i: Pins)
    requires Twin(ins, es, w) && Collides(w, i)
    ensures var snap, t, ip := After(ins + [i]).snap, T.After(es), Served(w, i);
      && (snap == D.Response(D.SnapRegisters(es + [Packet(ip)] + [Tick])) <==>
            w.Counting? && !t.hll.Raises(ip) && !Leads(t, ip))
      && (snap == D.Response(D.SnapRegisters(es + [Tick])) <==> w.Rest?)
  {
    hide At, CmsAfter, HllAfter, After, T.After, C.Sketch.Bump, C.Sketch.Query, C.Sketch.Tick, H.Hll.Touch, H.Hll.Tick,
      H.Hll.Raises, Word32, Word16, C.Sketch.Valid, H.Hll.Valid, HC.Word48, HC.Word12, Presented, Key;
    var ip := Served(w, i);
    EdgeSpec(ins, i);
    TelAppend(es, ip);
    SumMovesIff(es, ip);
    AggregatesFit(es);
    Word32Moves(T.After(es).totalPackets);
  }

  /** The state left is that of the packet first and then the tick exactly at age 4, when the packet raises no
      register and does not take the lead, and never that of the other order. */
  lemma {:induction false} CollisionIsTwinIff(ins: seq<Pins>, es: seq<Event>, w: Work, i: Pins, quiet: seq<Pins>)
    requires Twin(ins, es, w) && w.Valid() && Collides(w, i)
    requires |quiet| == 4 - Lag(w) && forall q <- quiet :: Idle(q)
    ensures var f, t, ip := ins + [i] + quiet, T.After(es), Served(w, i);
      && (Twin(f, es + [Packet(ip)] + [Tick], Rest) <==> Lag(w) == 4 && !t.hll.Raises(ip) && !Leads(t, ip))
      && !Twin(f, es + [Tick] + [Packet(ip)], Rest)
  {
    hide At, CmsAfter, HllAfter, After, T.After, C.Sketch.Bump, C.Sketch.Query, C.Sketch.Tick, H.Hll.Touch, H.Hll.Tick,
      H.Hll.Raises, Word16, C.Sketch.Valid, H.Hll.Valid, HC.Word48, HC.Word12, HC.Tear;
    var t, ip := T.After(es), Served(w, i);
    TickDuringService(ins, es, w, i, quiet);
    TelAppend(es, ip);
    SumMovesIff(es, ip);
    AggregatesFit(es);
    HC.OrderMatters(t.hll, ip);
    TearIff(es, ip);
  }

  lemma {:induction false} TearIff(es: seq<Event>, ip: Ip)
    ensures var s := T.After(es).hll; HC.Tear(s, ip) == s.Touch(ip).Tick() <==> !s.Raises(ip)
  {
    hide T.After, H.After, HC.Tear;
    T.Components(es);
    HC.TearsIff(es, ip);
  }

  // ----- it does happen: the first packet after reset, at every age -----

  function Idles(x: Ip, n: nat): (quiet: seq<Pins>)
    ensures |quiet| == n && forall q <- quiet :: Idle(q)
  {
    if n == 0 then [] else Idles(x, n - 1) + [Pins(x, false, false, false)]
  }

  /** A first packet of ip, offered that many edges ago. */
  function FirstPacket(ip: Ip, x: Ip, age: nat): seq<Pins> {
    if age == 0 then [] else [Pins(ip, true, false, false)] + Idles(x, age - 1)
  }

  ghost function FirstWork(ip: Ip, age: nat): Work {
    if age == 0 then Rest else Counting(ip, age, if age <= 2 then 0 else C.Fresh().Bump(ip).Query(ip))
  }

  lemma {:induction false} FirstPacketServed(ip: Ip, x: Ip, age: nat)
    requires age <= 4
    ensures Twin(FirstPacket(ip, x, age), [], FirstWork(ip, age))
  {
    hide C.Fresh, H.Fresh, C.Sketch.Bump, C.Sketch.Query, Twin, CmsAfter, T.After;
    if age == 0 {
      NothingIsTwin();
    } else {
      var was, i := FirstPacket(ip, x, age - 1), Pins(if age == 1 then ip else x, age == 1, false, false);
      FirstPacketServed(ip, x, age - 1);
      TwinStep(was, [], FirstWork(ip, age - 1), i);
      StillFresh(was, FirstWork(ip, age - 1));
      assert FirstPacket(ip, x, age) == was + [i];
    }
  }

  lemma StillFresh(ins: seq<Pins>, w: Work)
    requires Twin(ins, [], w)
    ensures !w.Counting? || w.age <= 2 ==> CmsAfter(ins) == C.Fresh()
  {
    hide C.Fresh, H.Fresh, CmsAfter, HllAfter, At, Around;
    NothingHappened();
  }

  lemma {:induction false} FirstPacketCollides(ip: Ip, x: Ip, age: nat)
    requires age <= 4
    ensures var tick := Pins(if age == 0 then ip else x, age == 0, false, true);
      var f := FirstPacket(ip, x, age) + [tick] + Idles(x, 4 - age);
      !Twin(f, [Packet(ip), Tick], Rest) && !Twin(f, [Tick, Packet(ip)], Rest)
  {
    hide Twin, H.Fresh, C.Fresh, C.Sketch.Bump, C.Sketch.Query, H.Bucket, H.IpRank;
    NothingHappened();
    FirstPacketServed(ip, x, age);
    FreshIsRaised(ip);
    var tick := Pins(if age == 0 then ip else x, age == 0, false, true);
    CollisionIsTwinIff(FirstPacket(ip, x, age), [], FirstWork(ip, age), tick, Idles(x, 4 - age));
    assert [] + [Packet(ip)] + [Tick] == [Packet(ip), Tick] && [] + [Tick] + [Packet(ip)] == [Tick, Packet(ip)];
  }

  lemma FreshIsRaised(ip: Ip)
    ensures T.Fresh().hll.Raises(ip)
  {
    hide H.Bucket, H.IpRank;
  }
}
