/** The classifier pipeline on clock edges (fpga/src/classifiers.v, rule_lookup.v, verdict_encoder.v):
    Bloom stage, flow table and rule lookup run side by side on one frame, are joined and encoded. */
module Classifiers {
  import opened Words
  import opened Stream
  import opened Wire
  import opened Device
  import B = Bloom
  import BC = BloomCore
  import FC = FlowCore
  import F = FlowTable

  /** The inputs of one clock edge: the parsed frame, the live thresholds and epoch, the rule store's
      registered readout, port B of the Bloom memory and the sequence number. */
  datatype Pins = Pins(header: F.Header, fieldsValid: bool, lim: F.Limits, epoch: nat, rRule: RuleCell,
                       wAddr: BC.Addr, wData: B.Word, wEn: bool, rAddr: BC.Addr, rEn: bool, seqNo: nat)

  function BloomPins(i: Pins): BC.Pins {
    BC.Pins(i.header.src, i.header.dst, i.fieldsValid, i.wAddr, i.wData, i.wEn, i.rAddr, i.rEn)
  }

  function FlowPins(i: Pins): FC.Pins {
    FC.Pins(i.header, i.lim, i.fieldsValid)
  }

  /** What the three stages find for a frame. */
  datatype Findings = Findings(bloom: bool, pair: (bool, bool), rule: Lookup) {
    function Verdict(seqNo: nat): (v: Verdict)
      ensures v.severity < 4
    {
      Combine(bloom, pair.0, pair.1, rule, seqNo)
    }
  }

  /** The frame-level findings: a device's stores before the frame, and the frame's own cell after it. */
  datatype Job = Job(h: F.Header, lim: F.Limits, epoch: nat, cell: RuleCell, store: seq<B.Word>, flow: seq<F.Cell>) {
    predicate Valid() {
      |store| == B.M_WORDS && |flow| == F.DEPTH
    }

    function FlowAfter(): (t: seq<F.Cell>)
      requires Valid()
      ensures |t| == F.DEPTH
    {
      flow[F.Bucket(h.src) := F.Absorb(flow[F.Bucket(h.src)], h)]
    }

    function Found(): Findings
      requires Valid()
    {
      Findings(B.StoreMember(store, h.src) || B.StoreMember(store, h.dst),
                        F.Verdict(FlowAfter()[F.Bucket(h.src)], lim), LookupCell(cell, h.src, epoch))
    }
  }

  // ----- stages: 0 idle, else the number of edges since the frame's arrival, of which the third
  //       accepts it here and the tenth encodes its verdict -----

  const ENCODED := 10

  function NextStage(a: nat, go: bool): nat {
    if a == 0 then (if go then 2 else 0) else if a >= ENCODED then 0 else a + 1
  }

  // ----- the Bloom stage -----

  ghost predicate QuietSince(ins: seq<BC.Pins>, n: nat) {
    n <= |ins| && forall t :: |ins| - n <= t < |ins| ==> !ins[t].wEn
  }

  ghost predicate BloomAt(k: BC.Registers, start: seq<B.Word>, ins: seq<BC.Pins>, answers: seq<bool>, j: Job, a: nat)
    requires j.Valid()
  {
    && k.Sound(start, ins, answers)
    && k.phase == (if 2 <= a <= 6 then a - 1 else 0)
    && k.outValid == (a == 7)
    && (2 <= a <= 6 ==> k.mem == j.store && BC.Accepted(ins) == (j.h.src, j.h.dst) && QuietSince(ins, a - 1))
    && (a == 7 ==> k.bloomHit == j.Found().bloom)
  }

  lemma BloomStep(k: BC.Registers, n: BC.Registers, i: BC.Pins, start: seq<B.Word>, ins: seq<BC.Pins>,
                  answers: seq<bool>, j: Job, a: nat)
    requires j.Valid() && a != 1 && BloomAt(k, start, ins, answers, j, a) && |start| == B.M_WORDS
    requires n.Sound(start, ins + [i], BC.Shown(n, answers)) && (n.outValid <==> k.phase == 5)
    requires i.inValid ==> a == 0 && (i.src, i.dst) == (j.h.src, j.h.dst) && k.mem == j.store
    requires i.inValid || 2 <= a <= 6 ==> !i.wEn
    ensures BloomAt(n, start, ins + [i], BC.Shown(n, answers), j, NextStage(a, i.inValid))
  {
    hide BC.Busy, BC.Store, BC.Answers, BC.Accepted, BC.Answer, BC.StoreAt, B.StoreMember, B.StoreBit, F.Absorb,
      F.Verdict;
    hide LookupCell, B.H1, B.H2, F.Bucket;
    BC.EdgeSchedule(start, ins, i);
    if a == 6 {
      BC.QuietAnswerIsMembership(start, ins);
      assert Last(answers + [n.bloomHit]) == n.bloomHit;
    }
  }

  // ----- the flow table -----

  ghost predicate FlowAt(k: FC.Registers, ins: seq<FC.Pins>, verdicts: seq<(bool, bool)>, j: Job, a: nat)
    requires j.Valid()
  {
    && k.Sound(ins, verdicts)
    && k.phase == (if 2 <= a <= 4 then a - 1 else 0)
    && k.outValid == (a == 5)
    && (2 <= a ==> F.Table(FC.Linear(ins)) == if a <= 3 then j.flow else j.FlowAfter())
    && (2 <= a <= 4 ==> FC.Accepted(ins) == j.h)
    && (a == 5 ==> (k.portScanHit, k.rateHit) == j.Found().pair)
  }

  lemma {:induction false} FlowStep(k: FC.Registers, n: FC.Registers, i: FC.Pins, ins: seq<FC.Pins>,
                                  verdicts: seq<(bool, bool)>, j: Job, a: nat)
    requires j.Valid() && a != 1 && FlowAt(k, ins, verdicts, j, a)
    requires n.Sound(ins + [i], FC.Shown(n, verdicts)) && (n.outValid <==> k.phase == 3)
    requires i.inValid ==> a == 0 && i.header == j.h && F.Table(FC.Linear(ins)) == j.flow
    requires 2 <= a <= 4 ==> i.lim == j.lim
    ensures FlowAt(n, ins + [i], FC.Shown(n, verdicts), j, NextStage(a, i.inValid))
    ensures F.Table(FC.Linear(ins + [i])) == if a == 3 then j.FlowAfter() else F.Table(FC.Linear(ins))
  {
    hide FC.Busy, FC.Linear, FC.Verdicts, FC.Accepted, F.Absorb, F.Verdict, F.Bucket, F.Run, FC.Stored, LookupCell,
      B.StoreMember;
    FC.EdgeSchedule(ins, i);
    if a == 3 {
      assert Init(FC.Linear(ins) + [j.h]) == FC.Linear(ins);
    } else if a == 4 {
      assert Last(verdicts + [(n.portScanHit, n.rateHit)]) == (n.portScanHit, n.rateHit);
    }
  }

  // ----- the rule lookup -----

  datatype RuleRegs = RuleRegs(phase: bool, srcLat: Ip, epochLat: nat, result: Lookup, outValid: bool)

  /** Phase 0 latches source and epoch, phase 1 compares them with the rule read meanwhile. */
  method RuleEdge(k: RuleRegs, i: Pins) returns (n: RuleRegs)
    ensures n.outValid == k.phase && n.phase == (!k.phase && i.fieldsValid)
    ensures n.phase ==> (n.srcLat, n.epochLat) == (i.header.src, i.epoch)
    ensures k.phase ==> n.result == LookupCell(i.rRule, k.srcLat, k.epochLat)
  {
    n := k.(outValid := false);
    if !k.phase {
      if i.fieldsValid {
        n := n.(srcLat := i.header.src, epochLat := i.epoch, phase := true);
      }
    } else {
      var stored := DecodeRule(i.rRule);
      if stored.src == k.srcLat && stored.epoch == k.epochLat {
        n := n.(result := Lookup(true, stored.action, stored.severity));
      } else {
        n := n.(result := Lookup(false, 0, 0));
      }
      n := n.(outValid := true, phase := false);
    }
  }

  ghost predicate RuleAt(k: RuleRegs, j: Job, a: nat)
    requires j.Valid()
  {
    && k.phase == (a == 2) && k.outValid == (a == 3)
    && (a == 2 ==> (k.srcLat, k.epochLat) == (j.h.src, j.epoch))
    && (a == 3 ==> k.result == j.Found().rule)
  }

  // ----- the join and the encoder -----

  /** The joined outputs; the encoder adds the sequence number. */
  datatype Outcome = Outcome(bloom: bool, scan: bool, rate: bool, rule: bool, severity: nat, escalate: bool) {
    function Numbered(seqNo: nat): Verdict {
      Verdict(true, bloom, scan, rate, rule, severity, escalate, seqNo)
    }
  }

  datatype JoinRegs = JoinRegs(
    bloomDone: bool, ftDone: bool, rlDone: bool,
    bloomLat: bool, pairLat: (bool, bool), ruleLat: Lookup,
    outcome: Outcome, classifyValid: bool)
  {
    predicate Ready() {
      bloomDone && ftDone && rlDone
    }
  }

  method Join(bloom: bool, pair: (bool, bool), rule: Lookup) returns (o: Outcome)
    ensures o.severity < 4
    ensures forall seqNo :: o.Numbered(seqNo) == Findings(bloom, pair, rule).Verdict(seqNo)
  {
    var own := if bloom then 3 else if pair.0 || pair.1 then 2 else 0;
    var clamped := rule.severity % 4;
    o := Outcome(bloom, pair.0, pair.1, rule.matches, if own > clamped then own else clamped,
                 bloom || pair.0 || pair.1 || rule.matches || rule.action / 4 % 2 == 1);
  }

  /** The three outputs are latched as they come; when all are there they are combined. */
  method JoinEdge(k: JoinRegs, start: bool, bloom: BC.Registers, flow: FC.Registers, rule: RuleRegs)
    returns (n: JoinRegs)
    ensures n.bloomDone == (!k.Ready() && (bloom.outValid || (k.bloomDone && !start)))
    ensures n.ftDone == (!k.Ready() && (flow.outValid || (k.ftDone && !start)))
    ensures n.rlDone == (!k.Ready() && (rule.outValid || (k.rlDone && !start)))
    ensures n.bloomLat == if bloom.outValid then bloom.bloomHit else k.bloomLat
    ensures n.pairLat == if flow.outValid then (flow.portScanHit, flow.rateHit) else k.pairLat
    ensures n.ruleLat == if rule.outValid then rule.result else k.ruleLat
    ensures n.classifyValid == k.Ready()
    ensures if k.Ready() then
        n.outcome.severity < 4
        && forall seqNo :: n.outcome.Numbered(seqNo) == Findings(k.bloomLat, k.pairLat, k.ruleLat).Verdict(seqNo)
      else n.outcome == k.outcome
  {
    hide Findings.Verdict, Outcome.Numbered;
    n := k.(classifyValid := false);
    if start { n := n.(bloomDone := false, ftDone := false, rlDone := false); }
    if bloom.outValid { n := n.(bloomDone := true, bloomLat := bloom.bloomHit); }
    if flow.outValid { n := n.(ftDone := true, pairLat := (flow.portScanHit, flow.rateHit)); }
    if rule.outValid { n := n.(rlDone := true, ruleLat := rule.result); }
    if k.Ready() {
      var o := Join(k.bloomLat, k.pairLat, k.ruleLat);
      n := n.(outcome := o, classifyValid := true, bloomDone := false, ftDone := false, rlDone := false);
    }
  }

  ghost predicate JoinAt(k: JoinRegs, j: Job, seqNo: nat, a: nat)
    requires j.Valid()
  {
    && k.rlDone == (4 <= a <= 8) && k.ftDone == (6 <= a <= 8) && k.bloomDone == (a == 8) && k.classifyValid == (a == 9)
    && (4 <= a <= 8 ==> k.ruleLat == j.Found().rule)
    && (6 <= a <= 8 ==> k.pairLat == j.Found().pair)
    && (a == 8 ==> k.bloomLat == j.Found().bloom)
    && (a == 9 ==> k.outcome.severity < 4 && k.outcome.Numbered(seqNo) == j.Found().Verdict(seqNo))
  }

  datatype EncoderRegs = EncoderRegs(verdictFrame: Frame, verdictValid: bool)

  method EncoderEdge(k: EncoderRegs, join: JoinRegs, seqNo: nat) returns (n: EncoderRegs)
    requires join.classifyValid ==> join.outcome.severity < 4
    ensures n.verdictValid == join.classifyValid
    ensures n.verdictValid ==> n.verdictFrame == EncodeVerdict(join.outcome.Numbered(seqNo))
  {
    hide EncodeVerdict;
    n := k.(verdictValid := false);
    if join.classifyValid {
      n := EncoderRegs(EncodeVerdict(join.outcome.Numbered(seqNo)), true);
    }
  }

  ghost predicate EncoderAt(k: EncoderRegs, j: Job, seqNo: nat, a: nat)
    requires j.Valid()
  {
    && k.verdictValid == (a == ENCODED)
    && (a == ENCODED ==> k.verdictFrame == EncodeVerdict(j.Found().Verdict(seqNo)))
  }

  // ----- the pipeline -----

  datatype Registers = Registers(bloom: BC.Registers, flow: FC.Registers, rule: RuleRegs, join: JoinRegs,
                                 encoder: EncoderRegs)

  /** What the two clocked stages have been given and have presented so far. */
  datatype Past = Past(start: seq<B.Word>, bloomIns: seq<BC.Pins>, answers: seq<bool>,
                       flowIns: seq<FC.Pins>, pairs: seq<(bool, bool)>)
  {
    function Then(n: Registers, i: Pins): Past {
      Past(start, bloomIns + [BloomPins(i)], BC.Shown(n.bloom, answers), flowIns + [FlowPins(i)],
           FC.Shown(n.flow, pairs))
    }
  }

  /** All registers a edges into a job. */
  ghost predicate At(k: Registers, p: Past, j: Job, seqNo: nat, a: nat)
    requires j.Valid()
  {
    && |p.start| == B.M_WORDS
    && BloomAt(k.bloom, p.start, p.bloomIns, p.answers, j, a)
    && FlowAt(k.flow, p.flowIns, p.pairs, j, a)
    && RuleAt(k.rule, j, a)
    && JoinAt(k.join, j, seqNo, a)
    && EncoderAt(k.encoder, j, seqNo, a)
  }

  /** What the rest of the design owes the pipeline during a job: one frame at a time, no Bloom write,
      and stable thresholds, epoch, rule readout and sequence number on the edges that use them. */
  predicate Fed(k: Registers, p: Past, i: Pins, j: Job, seqNo: nat, a: nat)
    requires j.Valid()
  {
    && a != 1
    && (i.fieldsValid ==> a == 0 && i.header == j.h && i.epoch == j.epoch && k.bloom.mem == j.store)
    && (i.fieldsValid || 2 <= a <= 6 ==> !i.wEn)
    && (2 <= a <= 4 ==> i.lim == j.lim)
    && (a == 2 ==> i.rRule == j.cell)
    && (a == 9 ==> i.seqNo == seqNo)
  }

  /** One rising edge of the whole pipeline. */
  method Edge(k: Registers, i: Pins, ghost p: Past, ghost j: Job, ghost seqNo: nat, ghost a: nat) returns (n: Registers)
    requires j.Valid() && At(k, p, j, seqNo, a) && Fed(k, p, i, j, seqNo, a)
    requires i.fieldsValid ==> F.Table(FC.Linear(p.flowIns)) == j.flow
    ensures At(n, p.Then(n, i), j, seqNo, NextStage(a, i.fieldsValid))
    ensures n.bloom.mem == if i.wEn then k.bloom.mem[i.wAddr := i.wData] else k.bloom.mem
    ensures n.bloom.rData == BC.Ports(k.bloom, BloomPins(i)).rData
    ensures F.Table(FC.Linear(p.Then(n, i).flowIns)) == if a == 3 then j.FlowAfter() else F.Table(FC.Linear(p.flowIns))
  {
    hide BC.Registers.Sound, FC.Registers.Sound, BC.Ports, F.Table, FC.Linear, Job.Found, Job.FlowAfter,
      Findings.Verdict;
    hide EncodeVerdict, LookupCell, Outcome.Numbered, BC.Shown, FC.Shown, QuietSince, BC.Accepted, FC.Accepted;
    var bloom := BloomEdge(k.bloom, i, p, j, a);
    var flow := FlowEdge(k.flow, i, p, j, a);
    var rule := RuleEdge(k.rule, i);
    var join := JoinEdge(k.join, i.fieldsValid, k.bloom, k.flow, k.rule);
    var encoder := EncoderEdge(k.encoder, k.join, i.seqNo);
    n := Registers(bloom, flow, rule, join, encoder);
    FoundRule(j);
  }

  lemma FoundRule(j: Job)
    requires j.Valid()
    ensures j.Found().rule == LookupCell(j.cell, j.h.src, j.epoch)
  {
  }

  method BloomEdge(k: BC.Registers, i: Pins, ghost p: Past, ghost j: Job, ghost a: nat) returns (n: BC.Registers)
    requires j.Valid() && a != 1 && |p.start| == B.M_WORDS && BloomAt(k, p.start, p.bloomIns, p.answers, j, a)
    requires i.fieldsValid ==> a == 0 && i.header == j.h && k.mem == j.store
    requires i.fieldsValid || 2 <= a <= 6 ==> !i.wEn
    ensures BloomAt(n, p.start, p.bloomIns + [BloomPins(i)], BC.Shown(n, p.answers), j, NextStage(a, i.fieldsValid))
    ensures |k.mem| == B.M_WORDS && n.mem == if i.wEn then k.mem[i.wAddr := i.wData] else k.mem
    ensures k.addrA < B.M_WORDS && n.rData == BC.Ports(k, BloomPins(i)).rData
  {
    hide BC.Busy, BC.Store, BC.Answers, BC.Accepted, BC.StoreAt, Job.Found, B.H1, B.H2;
    n := BC.Edge(k, BloomPins(i), p.start, p.bloomIns, p.answers);
    BC.EdgeSchedule(p.start, p.bloomIns, BloomPins(i));
    BloomStep(k, n, BloomPins(i), p.start, p.bloomIns, p.answers, j, a);
  }

  method FlowEdge(k: FC.Registers, i: Pins, ghost p: Past, ghost j: Job, ghost a: nat) returns (n: FC.Registers)
    requires j.Valid() && a != 1 && FlowAt(k, p.flowIns, p.pairs, j, a)
    requires i.fieldsValid ==> a == 0 && i.header == j.h && F.Table(FC.Linear(p.flowIns)) == j.flow
    requires 2 <= a <= 4 ==> i.lim == j.lim
    ensures FlowAt(n, p.flowIns + [FlowPins(i)], FC.Shown(n, p.pairs), j, NextStage(a, i.fieldsValid))
    ensures F.Table(FC.Linear(p.flowIns + [FlowPins(i)]))
      == if a == 3 then j.FlowAfter() else F.Table(FC.Linear(p.flowIns))
  {
    hide FC.Registers.Sound, FC.Linear, F.Table, Job.Found, Job.FlowAfter;
    assert k.Sound(p.flowIns, p.pairs);
    n := FC.Edge(k, FlowPins(i), p.flowIns, p.pairs);
    FlowStep(k, n, FlowPins(i), p.flowIns, p.pairs, j, a);
  }

  function AfterReset(mem: seq<B.Word>): Registers
    requires |mem| == B.M_WORDS
  {
    Registers(BC.AfterReset(mem), FC.AfterReset(), RuleRegs(false, 0, 0, Lookup(false, 0, 0), false),
              JoinRegs(false, false, false, false, (false, false), Lookup(false, 0, 0),
                       Outcome(false, false, false, false, 0, false), false),
              EncoderRegs(Flush(), false))
  }

  lemma ResetIsIdle(mem: seq<B.Word>, j: Job, seqNo: nat)
    requires |mem| == B.M_WORDS && j.Valid()
    ensures At(AfterReset(mem), Past(mem, [], [], [], []), j, seqNo, 0)
  {
    hide BC.Registers.Sound, FC.Registers.Sound;
  }
}
