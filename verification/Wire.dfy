/** The 32-byte frames of the link: control requests and replies (control.py, rule_store_model.py),
    telemetry replies (telemetry.py) and verdicts (verdict.py). */
module Wire {
  import opened Words

  const FRAME_LEN := 32
  const TELEMETRY_MAGIC: Byte := 0x5A
  const VERDICT_MAGIC: Byte := 0xA5

  type Bytes = seq<Byte>
  type Frame = f: Bytes | |f| == FRAME_LEN witness Flush()

  datatype Result<+T> = Ok(value: T) | BadFrame

  /** The all-zero frame that clocks out the reply to the frame before it. */
  function Flush(): (f: Bytes)
    ensures |f| == FRAME_LEN && forall i :: 0 <= i < FRAME_LEN ==> f[i] == 0
  {
    seq(FRAME_LEN, _ => 0)
  }

  // ----- big-endian numbers -----

  function Pow256(n: nat): nat {
    if n == 0 then 1 else 256 * Pow256(n - 1)
  }

  function Be(x: nat, n: nat): (b: Bytes)
    ensures |b| == n
  {
    if n == 0 then [] else Be(x / 256, n - 1) + [x % 256]
  }

  function FromBe(b: Bytes): nat {
    if b == [] then 0 else 256 * FromBe(b[..|b| - 1]) + b[|b| - 1]
  }

  lemma {:induction false} BeRoundTrip(x: nat, n: nat)
    requires x < Pow256(n)
    ensures FromBe(Be(x, n)) == x
  {
    if n == 0 {
    } else {
      BeRoundTrip(x / 256, n - 1);
      assert Be(x, n)[..n - 1] == Be(x / 256, n - 1);
    }
  }

  lemma {:induction false} FromBeRoundTrip(b: Bytes)
    ensures FromBe(b) < Pow256(|b|) && Be(FromBe(b), |b|) == b
  {
    if b == [] {
    } else {
      FromBeRoundTrip(b[..|b| - 1]);
      assert b == b[..|b| - 1] + [b[|b| - 1]];
    }
  }

  lemma Pow256Values()
    ensures Pow256(1) == 0x100 && Pow256(2) == 0x1_0000 && Pow256(4) == TWO32 && Pow256(6) == 0x1_0000_0000_0000
  {
    assert Pow256(3) == 0x100_0000 && Pow256(5) == 0x100_0000_0000;
  }

  /** body followed by zeros. */
  function Pad(body: Bytes): (f: Frame)
    requires |body| <= FRAME_LEN
    ensures f[..|body|] == body && forall i :: |body| <= i < FRAME_LEN ==> f[i] == 0
  {
    body + Flush()[..FRAME_LEN - |body|]
  }

  /** Bytes off .. off+n of a frame as a number. */
  function Field(f: Frame, off: nat, n: nat): nat
    requires off + n <= FRAME_LEN
  {
    FromBe(f[off..off + n])
  }

  lemma {:induction false} FieldOfPad(body: Bytes, off: nat, x: nat, n: nat)
    requires |body| <= FRAME_LEN && off + n <= |body| && x < Pow256(n) && body[off..off + n] == Be(x, n)
    ensures Field(Pad(body), off, n) == x
  {
    BeRoundTrip(x, n);
    assert Pad(body)[off..off + n] == body[off..off + n];
  }

  // ----- telemetry replies -----

  datatype SnapResponse = SnapResponse(window: nat, total: nat, harmonicSum: nat, zeros: nat,
                                       top1Count: nat, top1Key: nat)

  function WindowFields(s: SnapResponse): (b: Bytes)
    ensures |b| == 13
  {
    [TELEMETRY_MAGIC] + Be(s.window, 2) + Be(s.total, 4) + Be(s.harmonicSum, 6)
  }

  function LeaderFields(s: SnapResponse): (b: Bytes)
    ensures |b| == 8
  {
    Be(s.zeros % 0x1000, 2) + Be(s.top1Count % 0x4000, 2) + Be(s.top1Key, 4)
  }

  function EncodeSnapshot(s: SnapResponse): Frame {
    Pad(WindowFields(s) + LeaderFields(s))
  }

  function DecodeSnapshot(f: Bytes): Result<SnapResponse> {
    if |f| != FRAME_LEN || f[0] != TELEMETRY_MAGIC then BadFrame
    else Ok(SnapResponse(Field(f, 1, 2), Field(f, 3, 4), Field(f, 7, 6), Field(f, 13, 2) % 0x1000,
                         Field(f, 15, 2) % 0x4000, Field(f, 17, 4)))
  }

  /** The snapshots that can be encoded: two fields are cut, the others must fit theirs. */
  predicate Encodable(s: SnapResponse) {
    s.window < 0x1_0000 && s.total < TWO32 && s.harmonicSum < 0x1_0000_0000_0000 && s.top1Key < TWO32
  }

  /** The snapshots that the frame's fields can carry. */
  predicate Fits(s: SnapResponse) {
    Encodable(s) && s.zeros < 0x1000 && s.top1Count < 0x4000
  }

  lemma SnapshotRoundTrip(s: SnapResponse)
    requires Encodable(s)
    ensures DecodeSnapshot(EncodeSnapshot(s)) == Ok(s.(zeros := s.zeros % 4096, top1Count := s.top1Count % 16384))
  {
    WindowFieldsRead(s);
    LeaderFieldsRead(s);
    hide EncodeSnapshot, Field;
  }

  lemma WindowFieldsRead(s: SnapResponse)
    requires Encodable(s)
    ensures var f := EncodeSnapshot(s);
      f[0] == TELEMETRY_MAGIC && Field(f, 1, 2) == s.window && Field(f, 3, 4) == s.total
      && Field(f, 7, 6) == s.harmonicSum
  {
    var m: Bytes, w, t, h := [TELEMETRY_MAGIC], Be(s.window, 2), Be(s.total, 4), Be(s.harmonicSum, 6);
    var fields, body := m + w + t + h, WindowFields(s) + LeaderFields(s);
    Pow256Values();
    hide Be, FromBe, Pow256, Pad, Field, LeaderFields;
    assert body[..13] == fields;
    FieldOfPad(body, 1, s.window, 2);
    FieldOfPad(body, 3, s.total, 4);
    FieldOfPad(body, 7, s.harmonicSum, 6);
    assert Pad(body)[..21] == body;
  }

  lemma LeaderFieldsRead(s: SnapResponse)
    requires Encodable(s)
    ensures var f := EncodeSnapshot(s);
      Field(f, 13, 2) == s.zeros % 4096 && Field(f, 15, 2) == s.top1Count % 16384 && Field(f, 17, 4) == s.top1Key
  {
    var z, c, k := Be(s.zeros % 0x1000, 2), Be(s.top1Count % 0x4000, 2), Be(s.top1Key, 4);
    var fields, body := z + c + k, WindowFields(s) + LeaderFields(s);
    Pow256Values();
    hide Be, FromBe, Pow256, Pad, Field, WindowFields;
    assert body[13..] == fields;
    FieldOfPad(body, 13, s.zeros % 0x1000, 2);
    FieldOfPad(body, 15, s.top1Count % 0x4000, 2);
    FieldOfPad(body, 17, s.top1Key, 4);
  }

  function EncodeQuery(key: nat, count: nat): Frame {
    Pad([TELEMETRY_MAGIC] + Be(key, 4) + Be(count % 0x4000, 2))
  }

  function DecodeQuery(f: Bytes): Result<(nat, nat)> {
    if |f| != FRAME_LEN || f[0] != TELEMETRY_MAGIC then BadFrame
    else Ok((Field(f, 1, 4), Field(f, 5, 2) % 0x4000))
  }

  lemma QueryRoundTrip(key: nat, count: nat)
    requires key < TWO32
    ensures DecodeQuery(EncodeQuery(key, count)) == Ok((key, count % 16384))
  {
    hide Be, FromBe, Pow256, Pad, Field;
    var m: Bytes, k, c := [TELEMETRY_MAGIC], Be(key, 4), Be(count % 0x4000, 2);
    var body := m + k + c;
    assert EncodeQuery(key, count) == Pad(body);
    assert body[1..5] == k && body[5..7] == c;
    Pow256Values();
    FieldOfPad(body, 1, key, 4);
    FieldOfPad(body, 5, count % 0x4000, 2);
    assert Pad(body)[..7] == body;
  }

  function EncodeHll(sum: nat, zeros: nat, m: nat): Frame {
    Pad([TELEMETRY_MAGIC] + Be(sum, 6) + Be(zeros % 0x1000, 2) + Be(m, 2))
  }

  function DecodeHll(f: Bytes): Result<(nat, nat, nat)> {
    if |f| != FRAME_LEN || f[0] != TELEMETRY_MAGIC then BadFrame
    else Ok((Field(f, 1, 6), Field(f, 7, 2) % 0x1000, Field(f, 9, 2)))
  }

  lemma HllRoundTrip(sum: nat, zeros: nat, m: nat)
    requires sum < 0x1_0000_0000_0000 && m < 0x1_0000
    ensures DecodeHll(EncodeHll(sum, zeros, m)) == Ok((sum, zeros % 4096, m))
  {
    var g: Bytes, s, z, n := [TELEMETRY_MAGIC], Be(sum, 6), Be(zeros % 0x1000, 2), Be(m, 2);
    var body := g + s + z + n;
    hide Be, FromBe, Pow256, Pad, Field;
    Pow256Values();
    FieldOfPad(body, 1, sum, 6);
    FieldOfPad(body, 7, zeros % 0x1000, 2);
    FieldOfPad(body, 9, m, 2);
    assert Pad(body)[..11] == body;
  }

  // ----- classify frames -----

  function BuildClassify(src: nat, dst: nat, srcPort: nat, dstPort: nat, proto: nat, flags: nat, size: nat): Frame {
    Pad(Be(src % TWO32, 4) + Be(dst % TWO32, 4) + Be(srcPort % 0x1_0000, 2) + Be(dstPort % 0x1_0000, 2)
        + [proto % 256, flags % 256] + Be(size % 0x1_0000, 2) + [OP_CLASSIFY])
  }

  /** The fields lie where the device's parser looks for them, cut to their widths. */
  lemma ClassifyFields(src: nat, dst: nat, srcPort: nat, dstPort: nat, proto: nat, flags: nat, size: nat)
    ensures var f := BuildClassify(src, dst, srcPort, dstPort, proto, flags, size);
      && Field(f, 0, 4) == src % TWO32 && Field(f, 4, 4) == dst % TWO32
      && Field(f, 8, 2) == srcPort % 0x1_0000 && Field(f, 10, 2) == dstPort % 0x1_0000
      && f[12] == proto % 256 && f[13] == flags % 256 && Field(f, 14, 2) == size % 0x1_0000 && f[16] == OP_CLASSIFY
  {
    var s, d, sp, dp, z := Be(src % TWO32, 4), Be(dst % TWO32, 4), Be(srcPort % 0x1_0000, 2), Be(dstPort % 0x1_0000, 2),
      Be(size % 0x1_0000, 2);
    var pf: Bytes, op: Bytes := [proto % 256, flags % 256], [OP_CLASSIFY];
    var body := s + d + sp + dp + pf + z + op;
    hide Be, FromBe, Pow256, Pad, Field;
    Pow256Values();
    FieldOfPad(body, 0, src % TWO32, 4);
    FieldOfPad(body, 4, dst % TWO32, 4);
    FieldOfPad(body, 8, srcPort % 0x1_0000, 2);
    FieldOfPad(body, 10, dstPort % 0x1_0000, 2);
    FieldOfPad(body, 14, size % 0x1_0000, 2);
    assert Pad(body)[..17] == body;
  }

  // ----- verdicts -----

  datatype Verdict = Verdict(valid: bool, bloomHit: bool, portScan: bool, rateAnomaly: bool, ruleMatch: bool,
                             severity: nat, escalate: bool, seqNo: nat)

  function Flag(b: bool, weight: nat): nat {
    if b then weight else 0
  }

  function EncodeVerdict(v: Verdict): Frame
    requires v.severity < 256
  {
    var mask := Flag(v.bloomHit, 1) + Flag(v.portScan, 2) + Flag(v.rateAnomaly, 4) + Flag(v.ruleMatch, 8);
    Pad([VERDICT_MAGIC, mask, v.severity, Flag(v.escalate, 1), v.seqNo % 256])
  }

  function DecodeVerdict(f: Frame): Verdict {
    var mask := f[1];
    Verdict(f[0] == VERDICT_MAGIC, mask % 2 == 1, mask / 2 % 2 == 1, mask / 4 % 2 == 1, mask / 8 % 2 == 1,
            f[2], f[3] % 2 == 1, f[4])
  }

  lemma VerdictRoundTrip(v: Verdict)
    requires v.valid && v.severity < 256
    ensures DecodeVerdict(EncodeVerdict(v)) == v.(seqNo := v.seqNo % 256)
  {
    var mask := Flag(v.bloomHit, 1) + Flag(v.portScan, 2) + Flag(v.rateAnomaly, 4) + Flag(v.ruleMatch, 8);
    var body: Bytes := [VERDICT_MAGIC, mask, v.severity, Flag(v.escalate, 1), v.seqNo % 256];
    assert Pad(body)[..5] == body;
  }

  /** The layout: magic, a mask of the stages that fired, severity, flags and sequence number, then zeros. */
  lemma VerdictLayout(v: Verdict)
    requires v.severity < 256
    ensures var f := EncodeVerdict(v);
      && f[0] == 0xA5 && f[2] == v.severity && f[4] == v.seqNo % 256 && (forall i :: 5 <= i < 32 ==> f[i] == 0)
      && f[1] == (if v.bloomHit then 0x01 else 0) + (if v.portScan then 0x02 else 0)
                 + (if v.rateAnomaly then 0x04 else 0) + (if v.ruleMatch then 0x08 else 0)
      && f[3] == if v.escalate then 0x01 else 0
  {
    var mask := Flag(v.bloomHit, 1) + Flag(v.portScan, 2) + Flag(v.rateAnomaly, 4) + Flag(v.ruleMatch, 8);
    var body: Bytes := [VERDICT_MAGIC, mask, v.severity, Flag(v.escalate, 1), v.seqNo % 256];
    assert Pad(body)[..5] == body;
  }

  /** What a decoder makes of any frame: byte 1 modulo 16 is the mask, byte 3 modulo 2 the flag. */
  lemma VerdictReads(f: Frame)
    ensures var v := DecodeVerdict(f);
      && (v.valid <==> f[0] == 0xA5) && v.severity == f[2] && v.seqNo == f[4]
      && f[1] as nat % 16 == (if v.bloomHit then 0x01 else 0) + (if v.portScan then 0x02 else 0)
                             + (if v.rateAnomaly then 0x04 else 0) + (if v.ruleMatch then 0x08 else 0)
      && f[3] as nat % 2 == if v.escalate then 1 else 0
  {
    FourDigits(f[1]);
  }

  lemma FourDigits(x: nat)
    ensures x % 16 == x % 2 + 2 * (x / 2 % 2) + 4 * (x / 4 % 2) + 8 * (x / 8 % 2)
  {
    Halves(x);
    var a, b, c := x / 2, x / 4, x / 8;
    assert x == 16 * (c / 2) + (8 * (c % 2) + 4 * (b % 2) + 2 * (a % 2) + x % 2);
  }

  lemma Halves(x: nat)
    ensures x / 4 == x / 2 / 2 && x / 8 == x / 4 / 2
  {
  }

  // ----- control requests and their replies -----

  const OP_CLASSIFY: Byte := 0x00
  const OP_QUERY := 0x01
  const OP_SNAPSHOT := 0x02
  const OP_HLL := 0x03
  const OP_BLOOM_W := 0x10
  const OP_THRESH_W := 0x11
  const OP_RULE_W := 0x12
  const OP_BLOOM_R := 0x13
  const OP_THRESH_R := 0x14
  const OP_RULE_R := 0x15

  /** A request: the payload from byte 0, the opcode in byte 16. */
  function Request(opcode: Byte, payload: Bytes): (f: Frame)
    requires |payload| <= 16
    ensures f[16] == opcode && f[..|payload|] == payload
  {
    Pad(payload)[16 := opcode]
  }

  lemma {:induction false} FieldOfRequest(opcode: Byte, payload: Bytes, off: nat, x: nat, n: nat)
    requires |payload| <= 16 && off + n <= |payload| && x < Pow256(n) && payload[off..off + n] == Be(x, n)
    ensures Field(Request(opcode, payload), off, n) == x
  {
    BeRoundTrip(x, n);
    assert Request(opcode, payload)[off..off + n] == payload[off..off + n];
  }

  datatype Rule = Rule(src: nat, action: nat, severity: nat, epoch: nat)

  const RULE_BYTES := 9

  function EncodeRule(r: Rule): (b: Bytes)
    ensures |b| == RULE_BYTES
  {
    Be(r.src, 4) + [r.action % 256, r.severity % 256, r.epoch % 256, 0, 0]
  }

  function DecodeRule(b: Bytes): Rule
    requires |b| == RULE_BYTES
  {
    Rule(FromBe(b[..4]), b[4], b[5] % 16, b[6])
  }

  /** What a written rule reads back as: the fields cut to 32, 8, 4 and 8 bits. */
  lemma RuleRoundTrip(r: Rule)
    requires r.src < TWO32
    ensures DecodeRule(EncodeRule(r)) == Rule(r.src, r.action % 256, r.severity % 16, r.epoch % 256)
  {
    Pow256Values();
    BeRoundTrip(r.src, 4);
    hide Be, FromBe;
    assert EncodeRule(r)[..4] == Be(r.src, 4);
  }

  function EncodeRuleWrite(idx: nat, r: Rule): Frame {
    Request(OP_RULE_W, Be(idx, 2) + EncodeRule(r))
  }

  function EncodeBloomWrite(addr: nat, value: nat): Frame {
    Request(OP_BLOOM_W, Be(addr, 2) + Be(value, 2))
  }

  function EncodeBloomRead(addr: nat): Frame {
    Request(OP_BLOOM_R, Be(addr, 2))
  }

  function EncodeThresholdWrite(tid: nat, value: nat): Frame {
    Request(OP_THRESH_W, [tid % 256] + Be(value, 2))
  }

  function EncodeRuleRead(idx: nat): Frame {
    Request(OP_RULE_R, Be(idx, 2))
  }

  function EncodeThresholdRead(tid: nat): Frame {
    Request(OP_THRESH_R, [tid % 256])
  }

  function SnapshotRequest(): Frame {
    Request(OP_SNAPSHOT, [])
  }

  function DecodeThresholdRead(f: Frame): Result<(nat, nat)> {
    if f[0] != TELEMETRY_MAGIC then BadFrame else Ok((f[1] as nat, Field(f, 2, 2)))
  }

  function DecodeBloomRead(f: Frame): Result<(nat, nat)> {
    if f[0] != TELEMETRY_MAGIC then BadFrame else Ok((Field(f, 1, 2), Field(f, 3, 2)))
  }

  function DecodeRuleRead(f: Frame): Result<(nat, Rule)> {
    if f[0] != TELEMETRY_MAGIC then BadFrame else Ok((Field(f, 1, 2), DecodeRule(f[3..12])))
  }

  /** A reply is refused exactly when its first byte is not the magic number. */
  lemma MagicDecides(f: Frame)
    ensures DecodeQuery(f).BadFrame? <==> f[0] != 0x5A
    ensures DecodeSnapshot(f).BadFrame? <==> f[0] != 0x5A
    ensures DecodeHll(f).BadFrame? <==> f[0] != 0x5A
    ensures DecodeThresholdRead(f).BadFrame? <==> f[0] != 0x5A
    ensures DecodeBloomRead(f).BadFrame? <==> f[0] != 0x5A
    ensures DecodeRuleRead(f).BadFrame? <==> f[0] != 0x5A
  {
    hide Field, DecodeRule;
  }

  /** The 16-bit number that a read request starts with. */
  lemma {:induction false} ReadFields(opcode: Byte, at: nat)
    requires at < 0x1_0000
    ensures Field(Request(opcode, Be(at, 2)), 0, 2) == at
  {
    Pow256Values();
    FieldOfRequest(opcode, Be(at, 2), 0, at, 2);
  }

  lemma ThresholdWriteFields(tid: Byte, value: nat)
    requires value < 0x1_0000
    ensures EncodeThresholdWrite(tid, value)[0] == tid && Field(EncodeThresholdWrite(tid, value), 1, 2) == value
  {
    var payload: Bytes := [tid as int % 256] + Be(value, 2);
    Pow256Values();
    FieldOfRequest(OP_THRESH_W, payload, 1, value, 2);
    assert Request(OP_THRESH_W, payload)[..3] == payload;
  }

  lemma RuleWriteFields(idx: nat, r: Rule)
    requires idx < 0x1_0000
    ensures Field(EncodeRuleWrite(idx, r), 0, 2) == idx && EncodeRuleWrite(idx, r)[2..11] == EncodeRule(r)
  {
    var payload := Be(idx, 2) + EncodeRule(r);
    Pow256Values();
    FieldOfRequest(OP_RULE_W, payload, 0, idx, 2);
    hide Be, FromBe, EncodeRule, Field;
    assert Request(OP_RULE_W, payload)[..11] == payload;
    assert EncodeRuleWrite(idx, r)[2..11] == payload[2..11];
  }

  lemma BloomWriteFields(addr: nat, value: nat)
    requires addr < 0x1_0000 && value < 0x1_0000
    ensures Field(EncodeBloomWrite(addr, value), 0, 2) == addr && Field(EncodeBloomWrite(addr, value), 2, 2) == value
  {
    var payload := Be(addr, 2) + Be(value, 2);
    Pow256Values();
    FieldOfRequest(OP_BLOOM_W, payload, 0, addr, 2);
    FieldOfRequest(OP_BLOOM_W, payload, 2, value, 2);
  }

  // ----- the replies to control requests -----

  function Ack(opcode: Byte): Frame {
    Pad([TELEMETRY_MAGIC, opcode])
  }

  function BloomReply(addr: nat, word: nat): Frame {
    Pad([TELEMETRY_MAGIC] + Be(addr, 2) + Be(word, 2))
  }

  function ThresholdReply(tid: Byte, value: nat): Frame {
    Pad([TELEMETRY_MAGIC, tid] + Be(value, 2))
  }

  function RuleReply(idx: nat, rule: Bytes): Frame
    requires |rule| == RULE_BYTES
  {
    Pad([TELEMETRY_MAGIC] + Be(idx, 2) + rule)
  }

  lemma ThresholdReplyDecodes(tid: Byte, value: nat)
    requires value < 0x1_0000
    ensures DecodeThresholdRead(ThresholdReply(tid, value)) == Ok((tid as nat, value))
  {
    var g: Bytes, v := [TELEMETRY_MAGIC, tid], Be(value, 2);
    var body := g + v;
    Pow256Values();
    FieldOfPad(body, 2, value, 2);
    hide Be, FromBe, Field;
    assert Pad(body)[..4] == body;
  }

  lemma BloomReplyDecodes(addr: nat, word: nat)
    requires addr < 0x1_0000 && word < 0x1_0000
    ensures DecodeBloomRead(BloomReply(addr, word)) == Ok((addr, word))
  {
    var g: Bytes, a, w := [TELEMETRY_MAGIC], Be(addr, 2), Be(word, 2);
    var body := g + a + w;
    Pow256Values();
    FieldOfPad(body, 1, addr, 2);
    FieldOfPad(body, 3, word, 2);
    hide Be, FromBe, Field;
    assert Pad(body)[..5] == body;
  }

  lemma RuleReplyDecodes(idx: nat, rule: Bytes)
    requires idx < 0x1_0000 && |rule| == RULE_BYTES
    ensures DecodeRuleRead(RuleReply(idx, rule)) == Ok((idx, DecodeRule(rule)))
  {
    var g: Bytes, i := [TELEMETRY_MAGIC], Be(idx, 2);
    var body := g + i + rule;
    Pow256Values();
    FieldOfPad(body, 1, idx, 2);
    hide Be, FromBe, Field, DecodeRule;
    assert Pad(body)[..12] == body;
    assert RuleReply(idx, rule)[3..12] == body[3..12] == rule;
  }
}
