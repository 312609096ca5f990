/** Router and classifier pipeline together on clock edges (fpga/src/nids_top.v with classifiers.v and all
    stages below it), against the frame-level device; the telemetry is still their environment. */
module Fpga {
  import opened Words
  import opened Wire
  import opened Device
  import B = Bloom
  import BC = BloomCore
  import FC = FlowCore
  import F = FlowTable
  import N = NidsTop
  import P = Classifiers

  /** What the SPI slave and the telemetry present on one clock edge. */
  datatype Pins = Pins(arrival: Option<Frame>, estimate: Option<nat>, snap: SnapResponse, sum: nat, zeros: nat)

  /** Frames complete at least this many edges apart; the link's 256 bits take far longer. */
  const GAP := 11

  /** The router and the pipeline. The Bloom memory and its port-B readout appear in both, as the
      router and the pipeline see them. */
  datatype Registers = Registers(top: N.Registers, cls: P.Registers)

  function TopPins(k: Registers, i: Pins): N.Pins {
    N.Pins(i.arrival, if k.cls.encoder.verdictValid then Some(k.cls.encoder.verdictFrame) else None,
           i.estimate, i.snap, i.sum, i.zeros)
  }

  function PipePins(k: N.Registers): P.Pins {
    P.Pins(k.header, k.fieldsValid && k.inflightOp == OP_CLASSIFY, Limits(k.thr), EpochTap(k.thr), k.rRule,
           Half(k.rxFrame, 0) % 0x1000, Half(k.rxFrame, 2), k.fieldsValid && k.inflightOp == OP_BLOOM_W,
           Half(k.rxFrame, 0) % 0x1000, k.fieldsValid && k.inflightOp == OP_BLOOM_R, k.seqReg)
  }

  // ----- the frame in service -----

  predicate Classifying(s: N.Service) {
    s.Serving? && s.f[16] == OP_CLASSIFY
  }

  function StageOf(s: N.Service): nat {
    if Classifying(s) && 2 <= s.age <= P.ENCODED then s.age else 0
  }

  function JobOf(s: N.Service): (j: P.Job)
    requires s.d.Valid()
    ensures j.Valid()
  {
    var h := Parse(if s.Serving? then s.f else Flush(), s.d.frameCount);
    P.Job(h, Limits(s.d.thr), EpochTap(s.d.thr), s.d.rules[LookupIdx(h.src)], s.d.bloom, s.d.flow)
  }

  function SeqOf(s: N.Service): nat {
    (s.d.frameCount + 1) % 256
  }

  /** The flow table's cells: the frame in service takes effect four edges after its arrival. */
  ghost function FlowNow(s: N.Service): seq<F.Cell>
    requires s.Valid()
  {
    if Classifying(s) && s.age >= 4 then JobOf(s).FlowAfter() else s.d.flow
  }

  lemma JobVerdict(d: Dev, f: Frame, age: nat, answered: bool)
    requires d.Valid()
    ensures var s := N.Serving(d, f, age, answered); JobOf(s).Found().Verdict(SeqOf(s)) == VerdictOn(d, f)
  {
    hide F.Absorb, F.Verdict, F.Bucket, Parse, B.StoreMember, LookupCell, LookupIdx, Combine;
  }

  lemma ServedFlow(d: Dev, f: Frame, age: nat, answered: bool)
    requires d.Valid()
    ensures Respond(d, f).flow
      == if f[16] == OP_CLASSIFY then JobOf(N.Serving(d, f, age, answered)).FlowAfter() else d.flow
  {
    hide F.Absorb, F.Bucket, Parse, VerdictOn, QueryReply, SnapshotReply, HllReply, Half, SourceOf, Word16;
    hide Ack, BloomReply, ThresholdReply, RuleReply, LookupIdx, WriteThreshold, ReadThreshold;
  }

  // ----- the invariant -----

  ghost predicate Sound(k: Registers, p: P.Past, s: N.Service)
    requires s.Valid()
  {
    && N.Sound(k.top, s)
    && k.top.bloom == k.cls.bloom.mem && k.top.bfRData == k.cls.bloom.rData
    && P.At(k.cls, p, JobOf(s), SeqOf(s), StageOf(s))
    && F.Table(FC.Linear(p.flowIns)) == FlowNow(s)
    && (Classifying(s) && s.age == 2 ==> k.top.rRule == JobOf(s).cell)
    && (Classifying(s) ==> (s.answered <==> s.age >= GAP))
  }

  /** What the SPI slave and the telemetry owe. */
  ghost predicate Fair(s: N.Service, i: Pins)
    requires s.Valid()
  {
    && (i.arrival.Some? && s.Serving? ==> s.age >= GAP && (s.f[16] == OP_QUERY ==> s.answered))
    && s.Honest(N.Pins(None, None, i.estimate, i.snap, i.sum, i.zeros))
  }

  /** The edge as the router sees it: the pipeline presents its verdict ten edges after a classify frame. */
  ghost function Seen(s: N.Service, i: Pins): (seen: N.Pins)
    requires s.Valid()
    ensures seen.arrival == i.arrival
  {
    N.Pins(i.arrival,
           if Classifying(s) && s.age == P.ENCODED then Some(EncodeVerdict(VerdictOn(s.d, s.f))) else None,
           i.estimate, i.snap, i.sum, i.zeros)
  }

  lemma PipelineIsHonest(k: Registers, p: P.Past, s: N.Service, i: Pins)
    requires s.Valid() && Sound(k, p, s) && Fair(s, i)
    ensures TopPins(k, i) == Seen(s, i) && s.Honest(TopPins(k, i))
  {
    hide VerdictOn, EncodeVerdict, N.Sound, P.BloomAt, P.FlowAt, P.RuleAt, P.JoinAt, P.Job.Found, JobOf, SeqOf, FlowNow;
    hide Response, SnapRegisters, SourceOf, F.Table, FC.Linear;
    if s.Serving? {
      JobVerdict(s.d, s.f, s.age, s.answered);
    }
  }

  lemma PipelineIsFed(k: Registers, p: P.Past, s: N.Service)
    requires s.Valid() && Sound(k, p, s)
    ensures P.Fed(k.cls, p, PipePins(k.top), JobOf(s), SeqOf(s), StageOf(s))
    ensures PipePins(k.top).fieldsValid <==> Classifying(s) && s.age == 1
    ensures PipePins(k.top).fieldsValid ==> F.Table(FC.Linear(p.flowIns)) == JobOf(s).flow
  {
    hide Respond, Half, Parse, Word16, P.At, LookupIdx, WriteThreshold, N.Sound, F.Table, FC.Linear, P.Job.FlowAfter,
      SourceOf;
    N.HandsOn(k.top, s);
    if s.Serving? {
      N.Effects(s.d, s.f);
    }
  }

  // ----- the invariant is kept -----

  lemma IdleTakesAnyJob(k: P.Registers, p: P.Past, j: P.Job, seqNo: nat, j': P.Job, seqNo': nat)
    requires j.Valid() && j'.Valid() && P.At(k, p, j, seqNo, 0)
    ensures P.At(k, p, j', seqNo', 0)
  {
    hide BC.Registers.Sound, FC.Registers.Sound, P.Job.Found, P.Job.FlowAfter;
  }

  /** The pipeline's stage follows the frame in service. */
  lemma StageMoves(k: P.Registers, p: P.Past, s: N.Service, i: Pins, ticks: nat)
    requires s.Valid() && Fair(s, i)
    requires P.At(k, p, JobOf(s), SeqOf(s), P.NextStage(StageOf(s), Classifying(s) && s.age == 1))
    ensures var s' := s.After(Seen(s, i), ticks); P.At(k, p, JobOf(s'), SeqOf(s'), StageOf(s'))
  {
    hide P.At, JobOf, SeqOf, Respond, TicksOf, VerdictOn, EncodeVerdict, SourceOf, Response, SnapRegisters;
    var s' := s.After(Seen(s, i), ticks);
    if i.arrival.Some? {
      IdleTakesAnyJob(k, p, JobOf(s), SeqOf(s), JobOf(s'), SeqOf(s'));
    } else {
      SameJob(s, s');
    }
  }

  lemma SameJob(s: N.Service, s': N.Service)
    requires s.d == s'.d && s.d.Valid() && s.Serving? == s'.Serving? && (s.Serving? ==> s.f == s'.f)
    ensures JobOf(s') == JobOf(s) && SeqOf(s') == SeqOf(s)
  {
    hide Parse, LookupIdx;
  }

  lemma FlowMoves(s: N.Service, i: Pins, ticks: nat)
    requires s.Valid() && Fair(s, i)
    ensures FlowNow(s.After(Seen(s, i), ticks)) == if StageOf(s) == 3 then JobOf(s).FlowAfter() else FlowNow(s)
  {
    hide JobOf, SeqOf, Respond, TicksOf, VerdictOn, EncodeVerdict, SourceOf, Response, SnapRegisters, P.Job.FlowAfter;
    var s' := s.After(Seen(s, i), ticks);
    if i.arrival.Some? {
      TicksKeep(s.Done(), ticks);
      if s.Serving? {
        ServedFlow(s.d, s.f, s.age, s.answered);
      }
    } else {
      SameJob(s, s');
    }
  }

  /** Router and pipeline see one Bloom memory. */
  lemma MemoryShared(k: Registers, n: Registers)
    requires N.Stored.requires(k.top, n.top) && N.Stored(k.top, n.top)
    requires k.top.bloom == k.cls.bloom.mem && k.top.bfRData == k.cls.bloom.rData && k.cls.bloom.addrA < B.M_WORDS
    requires var i := PipePins(k.top);
      && n.cls.bloom.mem == (if i.wEn then k.cls.bloom.mem[i.wAddr := i.wData] else k.cls.bloom.mem)
      && n.cls.bloom.rData == BC.Ports(k.cls.bloom, P.BloomPins(i)).rData
    ensures n.top.bloom == n.cls.bloom.mem && n.top.bfRData == n.cls.bloom.rData
  {
    hide Half, LookupIdx, WriteThreshold, ReadThreshold;
  }

  /** The rule store's readout one edge after the fields are latched is the source's cell. */
  lemma RuleReadout(k: N.Registers, n: N.Registers, s: N.Service)
    requires s.Valid() && N.Sound(k, s) && k.Shaped() && N.Stored(k, n) && Classifying(s) && s.age == 1
    ensures n.rRule == JobOf(s).cell
  {
    hide N.Sound, Parse, Half, WriteThreshold, ReadThreshold, LookupIdx, Respond, SourceOf;
    N.HandsOn(k, s);
  }

  lemma AnsweredAtGap(s: N.Service, i: Pins, ticks: nat)
    requires s.Valid() && Fair(s, i) && (Classifying(s) ==> (s.answered <==> s.age >= GAP))
    ensures var s' := s.After(Seen(s, i), ticks); Classifying(s') ==> (s'.answered <==> s'.age >= GAP)
  {
    hide Respond, TicksOf, VerdictOn, EncodeVerdict, SourceOf, Response, SnapRegisters;
  }

  /** One rising clock edge of both out of reset. */
  method Edge(k: Registers, i: Pins, ghost p: P.Past, ghost s: N.Service, ghost ticks: nat) returns (n: Registers)
    requires s.Valid() && Sound(k, p, s) && Fair(s, i)
    ensures Sound(n, p.Then(n.cls, PipePins(k.top)), s.After(Seen(s, i), ticks))
  {
    hide N.Sound, P.At, FC.Linear, F.Table, FlowNow, JobOf, SeqOf, Respond, VerdictOn, EncodeVerdict, N.Received,
      N.Piped, N.Muxed;
    hide N.Service.Honest, N.Service.After, N.Stored, P.Fed, BC.Ports, P.Past.Then, P.Job.FlowAfter;
    N.ShapedWhenSound(k.top, s);
    PipelineIsHonest(k, p, s, i);
    PipelineIsFed(k, p, s);
    PipelineShape(k.cls, p, JobOf(s), SeqOf(s), StageOf(s));
    var top := N.Edge(k.top, TopPins(k, i));
    N.EdgeKeeps(k.top, top, TopPins(k, i), s, ticks);
    var cls := P.Edge(k.cls, PipePins(k.top), p, JobOf(s), SeqOf(s), StageOf(s));
    n := Registers(top, cls);
    MemoryShared(k, n);
    StageMoves(cls, p.Then(cls, PipePins(k.top)), s, i, ticks);
    FlowMoves(s, i, ticks);
    AnsweredAtGap(s, i, ticks);
    RuleSettles(k, n, s, i, ticks);
  }

  lemma PipelineShape(k: P.Registers, p: P.Past, j: P.Job, seqNo: nat, a: nat)
    requires j.Valid() && P.At(k, p, j, seqNo, a)
    ensures k.bloom.addrA < B.M_WORDS && |k.bloom.mem| == B.M_WORDS
  {
  }

  lemma RuleSettles(k: Registers, n: Registers, s: N.Service, i: Pins, ticks: nat)
    requires s.Valid() && N.Sound(k.top, s) && k.top.Shaped() && N.Stored(k.top, n.top)
    ensures var s' := s.After(Seen(s, i), ticks); Classifying(s') && s'.age == 2 ==> n.top.rRule == JobOf(s').cell
  {
    hide N.Sound, N.Stored, JobOf, Respond, TicksOf, VerdictOn, EncodeVerdict;
    var s' := s.After(Seen(s, i), ticks);
    if Classifying(s') && s'.age == 2 {
      RuleReadout(k.top, n.top, s);
      SameJob(s, s');
    }
  }

  function AfterReset(mem: seq<B.Word>): Registers
    requires |mem| == B.M_WORDS
  {
    Registers(N.RegistersAtReset(mem), P.AfterReset(mem))
  }

  lemma ResetIsSound(mem: seq<B.Word>)
    requires |mem| == B.M_WORDS
    ensures Sound(AfterReset(mem), P.Past(mem, [], [], [], []), N.Idle(First(mem)))
  {
    hide P.At, JobOf, SeqOf;
    P.ResetIsIdle(mem, JobOf(N.Idle(First(mem))), SeqOf(N.Idle(First(mem))));
  }

  /** The frame-level device after reset. */
  ghost function First(mem: seq<B.Word>): (d: Dev)
    requires |mem| == B.M_WORDS
    ensures d.Valid()
  {
    N.AtReset(mem, F.Table([]))
  }

  /** No frame has arrived for GAP edges, and a point query has been answered. */
  ghost predicate Rested(s: N.Service) {
    s.Serving? ==> s.age >= GAP && (s.f[16] == OP_QUERY ==> s.answered)
  }

  lemma RestedIsDone(k: Registers, p: P.Past, s: N.Service)
    requires s.Valid() && Sound(k, p, s) && Rested(s)
    ensures k.top.tx == s.Done().tx && k.top.Holds(s.Done()) && k.cls.bloom.mem == s.Done().bloom
    ensures F.Table(FC.Linear(p.flowIns)) == s.Done().flow
  {
    hide N.Sound, P.At, JobOf, Respond, FC.Linear, F.Table, SourceOf;
    N.SettledIsDone(k.top, s);
    if s.Serving? {
      ServedFlow(s.d, s.f, s.age, s.answered);
    }
  }
}
