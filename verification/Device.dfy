/** The device behind the link at frame granularity (fpga/src/nids_top.v): opcode routing over the
    classifier, the sketches, the thresholds and the rule store, with a reply register that is read
    one frame later. Window ticks fall between frames, as many as the device's clock decides. */
module Device {
  import opened Words
  import opened Stream
  import opened Wire
  import F = FlowTable
  import B = Bloom
  import C = CountMin
  import H = HyperLogLog
  import T = Telemetry

  const RULE_DEPTH := 512

  type RuleCell = b: Bytes | |b| == RULE_BYTES witness BlankCell()

  function BlankCell(): (b: Bytes)
    ensures |b| == RULE_BYTES && forall i :: 0 <= i < 9 ==> b[i] == 0
  {
    [0, 0, 0, 0, 0, 0, 0, 0, 0]
  }

  function BlankCells(): (cells: seq<RuleCell>)
    ensures |cells| == RULE_DEPTH && forall i :: 0 <= i < RULE_DEPTH ==> cells[i] == BlankCell()
  {
    seq(RULE_DEPTH, _ => BlankCell())
  }

  const BLANK_RULE := Rule(0, 0, 0, 0)

  lemma BlankDecodes()
    ensures DecodeRule(BlankCell()) == BLANK_RULE
  {
    var b := BlankCell();
    Pow256Values();
    assert b[..4] == Be(0, 4) by {
      assert Be(0, 1) == [0] && Be(0, 2) == [0, 0] && Be(0, 3) == [0, 0, 0];
    }
    BeRoundTrip(0, 4);
  }

  datatype Thresholds = Thresholds(port: nat, host: nat, rate: nat, ruleEpoch: nat)

  datatype Dev = Dev(
    tx: Frame,                    // the pending reply
    frameCount: nat,              // 16 bits
    rules: seq<RuleCell>,
    thr: Thresholds,
    bloom: seq<B.Word>,
    flow: seq<F.Cell>,
    events: seq<Event>)           // what the telemetry has counted; its state is T.After(events)
  {
    ghost predicate Valid() {
      && frameCount < 0x1_0000 && |rules| == RULE_DEPTH && |bloom| == B.M_WORDS && |flow| == F.DEPTH
      && thr.port < 0x1_0000 && thr.host < 0x1_0000 && thr.rate < 0x1_0000 && thr.ruleEpoch < 0x1_0000
    }
  }

  // ----- rules -----

  function LookupIdx(src: Ip): (i: nat)
    ensures i < RULE_DEPTH
  {
    MulShift(src, A1, 0x80_0000) % 0x200
  }

  /** The index is the top nine bits of the low 32 of the product. */
  lemma LookupIdxSplits(src: Ip) returns (high: nat, low: nat)
    ensures src * 0x9E3779B1 == high * 0x1_0000_0000 + (LookupIdx(src) * 0x80_0000 + low) && low < 0x80_0000
  {
    high, low := ProductSplits(src, A1, 0x80_0000);
    assert MulShift(src, A1, 0x80_0000) < 0x200;
  }

  datatype Lookup = Lookup(matches: bool, action: nat, severity: nat)

  /** A stored rule applies when source and epoch are its own. */
  function Apply(stored: Rule, src: Ip, epoch: nat): Lookup {
    if stored.src == src && stored.epoch == epoch then Lookup(true, stored.action, stored.severity)
    else Lookup(false, 0, 0)
  }

  function LookupCell(cell: RuleCell, src: Ip, epoch: nat): Lookup {
    Apply(DecodeRule(cell), src, epoch)
  }

  function LookupRule(rules: seq<RuleCell>, src: Ip, epoch: nat): Lookup
    requires |rules| == RULE_DEPTH
  {
    LookupCell(rules[LookupIdx(src)], src, epoch)
  }

  /** The live tap of the rule-epoch register: its low byte. */
  function EpochTap(thr: Thresholds): nat {
    thr.ruleEpoch % 256
  }

  // ----- classification -----

  function FlagBits(x: Byte): Bitmap {
    set k: nat | k < 8 && B.BitOf(x, k)
  }

  function SourceOf(f: Frame): Ip {
    FromBeRoundTrip(f[0..4]);
    Pow256Values();
    Field(f, 0, 4)
  }

  function DestOf(f: Frame): Ip {
    FromBeRoundTrip(f[4..8]);
    Pow256Values();
    Field(f, 4, 4)
  }

  function Parse(f: Frame, frameIdx: nat): F.Header {
    F.Header(SourceOf(f), DestOf(f), Field(f, 8, 2), Field(f, 10, 2), f[12], FlagBits(f[13]), Field(f, 14, 2), frameIdx)
  }

  /** The parser reads a classify frame back, each field cut to its width. */
  lemma ClassifyParses(src: nat, dst: nat, srcPort: nat, dstPort: nat, proto: nat, flags: nat, size: nat, frameIdx: nat)
    ensures var f := BuildClassify(src, dst, srcPort, dstPort, proto, flags, size);
      && f[16] == OP_CLASSIFY
      && Parse(f, frameIdx) == F.Header(src % TWO32, dst % TWO32, srcPort % 0x1_0000, dstPort % 0x1_0000,
                                        proto % 256, FlagBits((flags % 256) as Byte), size % 0x1_0000, frameIdx)
  {
    ClassifyFields(src, dst, srcPort, dstPort, proto, flags, size);
    hide BuildClassify, FlagBits, Field;
  }

  /** Bit k of the flag byte is set. */
  lemma {:induction false} FlagIsBit(x: Byte, k: nat)
    ensures k in FlagBits(x) <==> k < 8 && x / Pow2(k) % 2 == 1
  {
    B.BitIsDigit(x, k);
  }

  /** A frame's packet opens a connection: TCP, SYN (weight 2) set, ACK (weight 16) clear. */
  lemma SynOnTheWire(f: Frame, k: nat)
    ensures F.SynGate(Parse(f, k)) <==> f[12] == 6 && f[13] / 2 % 2 == 1 && f[13] / 16 % 2 == 0
  {
    FlagIsBit(f[13], 1);
    FlagIsBit(f[13], 4);
    assert Pow2(1) == 2 && Pow2(2) == 4 && Pow2(4) == 16;
  }

  /** The stages' results combined: severity 3 for a Bloom hit, 2 for scan or rate, and at least the
      matching rule's low two bits. */
  function Combine(bloom: bool, scan: bool, rate: bool, rule: Lookup, seqNo: nat): (v: Verdict)
    ensures v.valid && v.severity < 4 && v.seqNo == seqNo
  {
    var own := if bloom then 3 else if scan || rate then 2 else 0;
    Verdict(true, bloom, scan, rate, rule.matches,
            if own > rule.severity % 4 then own else rule.severity % 4,
            bloom || scan || rate || rule.matches || rule.action / 4 % 2 == 1,
            seqNo)
  }

  function Limits(thr: Thresholds): F.Limits {
    F.Limits(thr.port, thr.host, thr.rate)
  }

  /** The verdict on a frame. */
  function VerdictOn(d: Dev, f: Frame): (v: Verdict)
    requires d.Valid()
    ensures v.valid && v.severity < 4 && v.seqNo < 256
  {
    var h := Parse(f, d.frameCount);
    var (scan, rate) := F.Verdict(F.Absorb(d.flow[F.Bucket(h.src)], h), Limits(d.thr));
    Combine(B.StoreMember(d.bloom, h.src) || B.StoreMember(d.bloom, h.dst), scan, rate,
            LookupRule(d.rules, h.src, EpochTap(d.thr)), (d.frameCount + 1) % 256)
  }

  function Classify(d: Dev, f: Frame): (n: Dev)
    requires d.Valid()
    ensures n.Valid() && n == d.(tx := n.tx, flow := n.flow, events := n.events)
  {
    var h := Parse(f, d.frameCount);
    var b := F.Bucket(h.src);
    d.(tx := EncodeVerdict(VerdictOn(d, f)),
       flow := d.flow[b := F.Absorb(d.flow[b], h)],
       events := d.events + [Packet(h.src)])
  }

  // ----- routing -----

  /** The latched registers of the last completed window; before the first, their reset values. */
  function SnapRegisters(events: seq<Event>): T.Snapshot {
    LatchedBy(T.After(events))
  }

  function LatchedBy(t: T.Tel): T.Snapshot {
    if t.snapshot.Some? then t.snapshot.value else T.Snapshot(0, 0, 0x800_0000_0000, 2048, 0, 0)
  }

  function QueryReply(events: seq<Event>, src: Ip): Frame {
    EncodeQuery(src, T.After(events).cms.Query(src))
  }

  function SnapshotReply(events: seq<Event>): Frame {
    EncodeSnapshot(Response(SnapRegisters(events)))
  }

  function HllReply(events: seq<Event>): Frame {
    var hll := T.After(events).hll;
    EncodeHll(if hll.harmonicSum >= 0 then hll.harmonicSum else 0, if hll.zeros >= 0 then hll.zeros else 0, 2048)
  }

  function Response(s: T.Snapshot): SnapResponse {
    SnapResponse(s.windowIndex, Word32(s.totalPackets), if s.harmonicSum >= 0 then s.harmonicSum else 0,
                 if s.zeros >= 0 then s.zeros else 0, s.top1Count, s.top1Key)
  }

  function ReadThreshold(thr: Thresholds, tid: Byte): nat {
    if tid == 0 then thr.port else if tid == 1 then thr.host else if tid == 2 then thr.rate
    else if tid == 3 then thr.ruleEpoch else 0
  }

  function WriteThreshold(thr: Thresholds, tid: Byte, value: nat): Thresholds {
    if tid == 0 then thr.(port := value) else if tid == 1 then thr.(host := value)
    else if tid == 2 then thr.(rate := value) else if tid == 3 then thr.(ruleEpoch := value) else thr
  }

  /** The 16-bit number at bytes off, off + 1. */
  function Half(f: Frame, off: nat): (x: nat)
    requires off + 2 <= FRAME_LEN
    ensures x < 0x1_0000
  {
    FromBeRoundTrip(f[off..off + 2]);
    Pow256Values();
    Field(f, off, 2)
  }

  // What each control opcode does.

  function WriteBloom(d: Dev, f: Frame): Dev
    requires d.Valid()
  {
    d.(tx := Ack(OP_BLOOM_W), bloom := d.bloom[Half(f, 0) % 0x1000 := Half(f, 2)])
  }

  function WriteThresholds(d: Dev, f: Frame): Dev {
    d.(tx := Ack(OP_THRESH_W), thr := WriteThreshold(d.thr, f[0], Half(f, 1)))
  }

  function WriteRule(d: Dev, f: Frame): Dev
    requires d.Valid()
  {
    d.(tx := Ack(OP_RULE_W), rules := d.rules[Half(f, 0) % 0x200 := f[2..11]])
  }

  function ReadBloom(d: Dev, f: Frame): Dev
    requires d.Valid()
  {
    d.(tx := BloomReply(Half(f, 0), d.bloom[Half(f, 0) % 0x1000]))
  }

  function ReadThresholds(d: Dev, f: Frame): Dev {
    d.(tx := ThresholdReply(f[0], ReadThreshold(d.thr, f[0])))
  }

  function ReadRule(d: Dev, f: Frame): Dev
    requires d.Valid()
  {
    d.(tx := RuleReply(Half(f, 0), d.rules[Half(f, 0) % 0x200]))
  }

  /** The opcode in byte 16 selects the effect and the pending reply. */
  function Serve(d: Dev, f: Frame): Dev
    requires d.Valid()
  {
    var op := f[16];
    if op == OP_CLASSIFY then Classify(d, f)
    else if op == OP_QUERY then d.(tx := QueryReply(d.events, SourceOf(f)))
    else if op == OP_SNAPSHOT then d.(tx := SnapshotReply(d.events))
    else if op == OP_HLL then d.(tx := HllReply(d.events))
    else if op == OP_BLOOM_W then WriteBloom(d, f)
    else if op == OP_THRESH_W then WriteThresholds(d, f)
    else if op == OP_RULE_W then WriteRule(d, f)
    else if op == OP_BLOOM_R then ReadBloom(d, f)
    else if op == OP_THRESH_R then ReadThresholds(d, f)
    else if op == OP_RULE_R then ReadRule(d, f)
    else d
  }

  /** What a complete frame does: it is counted and served. */
  function Respond(d: Dev, f: Frame): (n: Dev)
    requires d.Valid()
    ensures n.Valid()
  {
    ServeKeeps(d, f);
    Serve(d, f).(frameCount := Word16(d.frameCount + 1))
  }

  lemma ServeKeeps(d: Dev, f: Frame)
    requires d.Valid()
    ensures Serve(d, f).Valid() && Serve(d, f).frameCount == d.frameCount
  {
    hide VerdictOn, QueryReply, SnapshotReply, HllReply, Half, SourceOf, Ack, BloomReply, ThresholdReply, RuleReply;
  }

  /** The device after n windows have ended. */
  function TicksOf(d: Dev, n: nat): (r: Dev)
    requires d.Valid()
    ensures r.Valid()
  {
    d.(events := d.events + C.Quiet(n))
  }

  lemma TicksKeep(d: Dev, n: nat)
    requires d.Valid()
    ensures var m := TicksOf(d, n);
      m.rules == d.rules && m.thr == d.thr && m.bloom == d.bloom && m.flow == d.flow && d.events <= m.events
  {
  }

  // ----- what each request does; n is the device after it -----

  lemma Counts(d: Dev, f: Frame, n: Dev)
    requires d.Valid() && n == Respond(d, f)
    ensures n.Valid() && n.frameCount == Word16(d.frameCount + 1)
  {
    hide Serve, Word16;
  }

  /** A classify frame: the pending reply decodes to its verdict; rules, thresholds and Bloom words stay. */
  lemma OnClassify(d: Dev, f: Frame, n: Dev)
    requires d.Valid() && f[16] == OP_CLASSIFY && n == Respond(d, f)
    ensures DecodeVerdict(n.tx) == VerdictOn(d, f)
    ensures n.rules == d.rules && n.thr == d.thr && n.bloom == d.bloom && n.events == d.events + [Packet(SourceOf(f))]
  {
    hide Serve, Word16, VerdictOn, EncodeVerdict, DecodeVerdict, F.Absorb, F.Bucket, SourceOf, DestOf;
    FrameServed(d, f);
    VerdictRoundTrip(VerdictOn(d, f));
  }

  /** What a classify frame's verdict says, in terms of the registers as they read, the source's cell after
      the frame, the Bloom words and the source's rule. */
  lemma VerdictSays(d: Dev, f: Frame, n: Dev)
    requires d.Valid() && f[16] == 0x00 && n == Respond(d, f)
    ensures var v, cell := DecodeVerdict(n.tx), n.flow[F.Bucket(SourceOf(f))];
      var rule := DecodeRule(d.rules[LookupIdx(SourceOf(f))]);
      && v.valid && v.seqNo == (d.frameCount + 1) % 256
      && (v.bloomHit <==> B.StoreMember(d.bloom, SourceOf(f)) || B.StoreMember(d.bloom, DestOf(f)))
      && (v.portScan <==> |cell.ports| >= ReadThreshold(d.thr, 0) || |cell.hosts| >= ReadThreshold(d.thr, 1))
      && (v.rateAnomaly <==> cell.pkts >= ReadThreshold(d.thr, 2))
      && (v.ruleMatch <==> rule.src == SourceOf(f) && rule.epoch == ReadThreshold(d.thr, 3) % 256)
  {
    hide F.Absorb, F.Bucket, Parse, SourceOf, DestOf, LookupIdx, DecodeRule, B.StoreMember, DecodeVerdict,
      EncodeVerdict, Word16, Serve;
    OnClassify(d, f, n);
    FrameServed(d, f);
    ParsedAddresses(f, d.frameCount);
  }

  lemma ParsedAddresses(f: Frame, k: nat)
    ensures Parse(f, k).src == SourceOf(f) && Parse(f, k).dst == DestOf(f)
  {
  }

  /** And how the source's cell got there: one more packet of its size, after another source or epoch was
      evicted; the SYN count and both bitmaps move exactly on a SYN without ACK. */
  ghost predicate CountsFrame(was: F.Cell, cell: F.Cell, f: Frame, frameCount: nat) {
    var kept := was.fp == F.Fp(SourceOf(f)) && was.epoch == frameCount / 16 % 16;
    var old' := if kept then was else F.Blank(frameCount / 16 % 16, F.Fp(SourceOf(f)));
    var syn := f[12] == 6 && f[13] as nat / 2 % 2 == 1 && f[13] as nat / 16 % 2 == 0;
    && cell.fp == F.Fp(SourceOf(f)) && cell.epoch == frameCount / 16 % 16
    && cell.pkts == Min(old'.pkts + 1, 16383) && cell.bytes == Min(old'.bytes + Field(f, 14, 2), 16777215)
    && cell.syns == (if syn then Min(old'.syns + 1, 4095) else old'.syns)
    && cell.ports == old'.ports + (if syn then {F.PortBit(Field(f, 10, 2))} else {})
    && cell.hosts == old'.hosts + (if syn then {F.HostBit(DestOf(f))} else {})
    && cell.flags == old'.flags + FlagBits(f[13])
  }

  lemma CellMoves(d: Dev, f: Frame, n: Dev)
    requires d.Valid() && f[16] == 0x00 && n == Respond(d, f)
    ensures var b := F.Bucket(SourceOf(f));
      n.Valid() && CountsFrame(d.flow[b], n.flow[b], f, d.frameCount) && n.flow == d.flow[b := n.flow[b]]
  {
    hide F.Absorb, F.Bucket, Parse, SourceOf, VerdictOn, EncodeVerdict, Word16, Serve, CountsFrame;
    FrameServed(d, f);
    ParsedAddresses(f, d.frameCount);
    AbsorbCounts(d.flow[F.Bucket(SourceOf(f))], f, d.frameCount);
  }

  lemma AbsorbCounts(c: F.Cell, f: Frame, k: nat)
    ensures CountsFrame(c, F.Absorb(c, Parse(f, k)), f, k)
  {
    hide F.Fp, F.PortBit, F.HostBit, F.SynGate, SourceOf, DestOf, FlagBits, Field;
    SynOnTheWire(f, k);
  }

  lemma FrameServed(d: Dev, f: Frame)
    requires d.Valid()
    ensures f[16] == OP_CLASSIFY ==> Serve(d, f) == Classify(d, f)
    ensures f[16] == OP_QUERY ==> Serve(d, f) == d.(tx := QueryReply(d.events, SourceOf(f)))
    ensures f[16] == OP_HLL ==> Serve(d, f) == d.(tx := HllReply(d.events))
  {
    hide Classify, QueryReply, HllReply, SourceOf;
  }

  /** A snapshot request: the pending reply encodes the last completed window; nothing else changes. */
  lemma OnSnapshot(d: Dev, f: Frame, n: Dev)
    requires d.Valid() && f[16] == OP_SNAPSHOT && n == Respond(d, f)
    ensures n == d.(tx := SnapshotReply(d.events), frameCount := Word16(d.frameCount + 1))
  {
    hide SnapshotReply, Word16;
  }

  /** A point query: the pending reply decodes to the source and its estimate, which is never below
      the source's true count in the current window, up to saturation; nothing else changes. */
  lemma OnQuery(d: Dev, f: Frame, n: Dev) returns (count: nat)
    requires d.Valid() && f[16] == OP_QUERY && n == Respond(d, f)
    ensures n == d.(tx := n.tx, frameCount := Word16(d.frameCount + 1))
    ensures DecodeQuery(n.tx) == Ok((SourceOf(f) as nat, count))
    ensures count == C.After(d.events).Query(SourceOf(f))
    ensures Min(Times(Window(d.events), SourceOf(f)), C.CMS_MAX) <= count
  {
    hide Serve, Word16, EncodeQuery, DecodeQuery, SourceOf, Times, T.After, C.After, C.Sketch.Query;
    FrameServed(d, f);
    count := EstimateBounds(d.events, SourceOf(f));
    QueryRoundTrip(SourceOf(f), count);
  }

  lemma EstimateBounds(events: seq<Event>, src: Ip) returns (count: nat)
    ensures count == C.After(events).Query(src) == T.After(events).cms.Query(src)
    ensures Min(Times(Window(events), src), C.CMS_MAX) <= count < 0x4000
  {
    T.Components(events);
    hide T.After, C.After, Times;
    count := C.After(events).Query(src);
    C.NeverUnderestimates(events, src);
    assert count <= C.After(events).At(src, 0);
  }

  /** A live HLL read: the pending reply decodes to the current window's aggregates; nothing else changes. */
  lemma OnHll(d: Dev, f: Frame, n: Dev)
    requires d.Valid() && f[16] == OP_HLL && n == Respond(d, f)
    ensures n == d.(tx := n.tx, frameCount := Word16(d.frameCount + 1))
    ensures var hll := H.After(d.events);
      && 0 <= hll.harmonicSum && 0 <= hll.zeros
      && DecodeHll(n.tx) == Ok((hll.harmonicSum as nat, hll.zeros as nat, H.HLL_M as nat))
  {
    hide Serve, Word16, EncodeHll, DecodeHll, T.After, H.After;
    var hll := H.After(d.events);
    FrameServed(d, f);
    T.Components(d.events);
    H.AggregatesInRange(d.events);
    HllRoundTrip(hll.harmonicSum, hll.zeros, H.HLL_M);
  }

  /** A threshold read: the pending reply decodes to the register's value; nothing else changes. */
  lemma OnThresholdRead(d: Dev, tid: Byte, n: Dev)
    requires d.Valid() && n == Respond(d, EncodeThresholdRead(tid))
    ensures n == d.(tx := n.tx, frameCount := Word16(d.frameCount + 1))
    ensures DecodeThresholdRead(n.tx) == Ok((tid as nat, ReadThreshold(d.thr, tid)))
  {
    var f := EncodeThresholdRead(tid);
    assert f[16] == OP_THRESH_R && f[..1] == [tid] && f[0] == f[..1][0];
    hide EncodeThresholdRead, ThresholdReply, DecodeThresholdRead, Word16;
    ThresholdReplyDecodes(tid, ReadThreshold(d.thr, tid));
  }

  /** A threshold write: the register then reads back the value, the others are kept. */
  lemma OnThresholdWrite(d: Dev, tid: Byte, value: nat, n: Dev)
    requires d.Valid() && value < 0x1_0000 && n == Respond(d, EncodeThresholdWrite(tid, value))
    ensures n == d.(tx := Ack(OP_THRESH_W), thr := n.thr, frameCount := Word16(d.frameCount + 1))
    ensures forall t: Byte :: ReadThreshold(n.thr, t) == if t == tid && tid < 4 then value else ReadThreshold(d.thr, t)
  {
    ThresholdWriteFields(tid, value);
    assert EncodeThresholdWrite(tid, value)[16] == OP_THRESH_W;
    hide EncodeThresholdWrite, Ack, Word16;
  }

  /** A rule write: the cell at the index then decodes to the rule, and the pending reply is its ack. */
  lemma OnRuleWrite(d: Dev, idx: nat, r: Rule, n: Dev)
    requires d.Valid() && idx < RULE_DEPTH && r.src < TWO32 && n == Respond(d, EncodeRuleWrite(idx, r))
    ensures n.Valid() && n == d.(tx := Ack(OP_RULE_W), rules := n.rules, frameCount := Word16(d.frameCount + 1))
    ensures DecodeRule(n.rules[idx]) == Rule(r.src, r.action % 256, r.severity % 16, r.epoch % 256)
    ensures forall i :: 0 <= i < RULE_DEPTH && i != idx ==> n.rules[i] == d.rules[i]
  {
    RuleWriteFields(idx, r);
    RuleRoundTrip(r);
    assert EncodeRuleWrite(idx, r)[16] == OP_RULE_W;
    hide EncodeRuleWrite, EncodeRule, DecodeRule, Ack, Word16;
  }

  /** A rule read: the pending reply decodes to the index and the rule stored there; nothing else changes. */
  lemma OnRuleRead(d: Dev, idx: nat, n: Dev)
    requires d.Valid() && idx < RULE_DEPTH && n == Respond(d, EncodeRuleRead(idx))
    ensures n == d.(tx := n.tx, frameCount := Word16(d.frameCount + 1))
    ensures DecodeRuleRead(n.tx) == Ok((idx, DecodeRule(d.rules[idx])))
  {
    ReadFields(OP_RULE_R, idx);
    RuleReplyDecodes(idx, d.rules[idx]);
    assert EncodeRuleRead(idx)[16] == OP_RULE_R;
    hide EncodeRuleRead, RuleReply, DecodeRuleRead, DecodeRule, Word16;
  }

  /** A Bloom write: the addressed word, and nothing else but the pending reply, takes the value. */
  lemma OnBloomWrite(d: Dev, addr: nat, value: B.Word, n: Dev)
    requires d.Valid() && addr < B.M_WORDS && n == Respond(d, EncodeBloomWrite(addr, value))
    ensures n.Valid()
    ensures n == d.(tx := Ack(OP_BLOOM_W), bloom := d.bloom[addr := value], frameCount := Word16(d.frameCount + 1))
  {
    BloomWriteFields(addr, value);
    assert EncodeBloomWrite(addr, value)[16] == OP_BLOOM_W;
    hide EncodeBloomWrite, Ack, Word16;
  }

  /** A Bloom read: the pending reply decodes to the address and the word stored there; nothing else changes. */
  lemma OnBloomRead(d: Dev, addr: nat, n: Dev)
    requires d.Valid() && addr < B.M_WORDS && n == Respond(d, EncodeBloomRead(addr))
    ensures n.Valid() && n == d.(tx := n.tx, frameCount := Word16(d.frameCount + 1))
    ensures DecodeBloomRead(n.tx) == Ok((addr, d.bloom[addr] as nat))
  {
    ReadFields(OP_BLOOM_R, addr);
    BloomReplyDecodes(addr, d.bloom[addr]);
    assert EncodeBloomRead(addr)[16] == OP_BLOOM_R;
    hide EncodeBloomRead, BloomReply, DecodeBloomRead, Word16;
  }

  // ----- what a verdict means -----

  /** The escalate flag is set exactly when some stage fired: a rule's action counts only when it matches. */
  lemma EscalatesIffThreat(d: Dev, f: Frame)
    requires d.Valid()
    ensures var v := VerdictOn(d, f);
      v.escalate <==> v.bloomHit || v.portScan || v.rateAnomaly || v.ruleMatch
  {
  }

  /** The severity is the largest among the stages that fired: 3, 2, and the matching rule's, whose
      byte's low two bits alone count. */
  lemma SeverityIsLargest(d: Dev, f: Frame)
    requires d.Valid()
    ensures var v, cell := VerdictOn(d, f), d.rules[LookupIdx(SourceOf(f))];
      && (v.bloomHit ==> v.severity == 3)
      && (v.portScan || v.rateAnomaly ==> v.severity >= 2)
      && (v.ruleMatch ==> v.severity >= cell[5] % 4)
      && (v.severity == 0 || (v.severity == 3 && v.bloomHit) || (v.severity == 2 && (v.portScan || v.rateAnomaly))
          || (v.severity == cell[5] % 4 && v.ruleMatch))
  {
    hide SourceOf, DestOf, LookupIdx, F.Absorb, F.Verdict, F.Bucket, B.StoreMember;
    LowBits(d.rules[LookupIdx(SourceOf(f))][5]);
  }

  lemma LowBits(x: Byte)
    ensures x as int % 16 % 4 == x as int % 4
  {
  }

  // ----- what the telemetry replies carry -----

  /** Every window a device can have latched fits the reply's fields. */
  lemma {:induction false} SnapshotFits(events: seq<Event>)
    ensures Fits(Response(SnapRegisters(events)))
  {
    if events == [] {
    } else {
      var es := Init(events);
      if Last(events).Tick? {
        H.AggregatesInRange(es);
        T.Components(es);
        T.TopSandwich(es, 0);
        TopCountFits(es);
      } else {
        SnapshotFits(es);
      }
    }
  }

  lemma {:induction false} LatchedAtTick(es: seq<Event>)
    ensures T.After(es + [Tick]).snapshot == Some(T.After(es).Current())
    ensures SnapRegisters(es + [Tick]) == T.After(es).Current()
  {
    assert Init(es + [Tick]) == es;
    hide C.Sketch.Bump, C.Sketch.Query, H.Hll.Touch, C.Sketch.Valid, H.Hll.Valid;
  }

  /** The snapshot latched at the end of a window of fewer than 2^32 packets is read back by the
      decoder field by field, none cut. */
  lemma {:induction false} SnapshotSurvives(es: seq<Event>)
    requires |Window(es)| < TWO32
    ensures var latched := T.After(es).Current();
      && T.After(es + [Tick]).snapshot == Some(latched)
      && 0 <= latched.harmonicSum && 0 <= latched.zeros
      && DecodeSnapshot(SnapshotReply(es + [Tick])) == Ok(SnapResponse(latched.windowIndex, latched.totalPackets,
           latched.harmonicSum, latched.zeros, latched.top1Count, latched.top1Key))
  {
    LatchedAtTick(es);
    T.Components(es);
    H.AggregatesInRange(es);
    SnapshotFits(es + [Tick]);
    hide EncodeSnapshot, DecodeSnapshot, SnapRegisters, T.After, H.After, Window, Fits;
    SnapshotRoundTrip(Response(SnapRegisters(es + [Tick])));
  }

  lemma {:induction false} TopCountFits(es: seq<Event>)
    ensures T.After(es).top1Count < 0x4000
  {
    T.TopSandwich(es, 0);
    var s := T.After(es).cms;
    assert s.Query(T.After(es).top1Key) <= s.At(T.After(es).top1Key, 0);
  }
}
