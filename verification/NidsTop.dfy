/** The top level on clock edges (fpga/src/nids_top.v, with thresholds.v, rule_store.v, the parser's
    source field and port B of the Bloom memory) against the frame-level device. The classifiers and
    the telemetry are its environment: they answer a frame some edges after it, correctly. */
module NidsTop {
  import opened Words
  import opened Wire
  import opened Device
  import B = Bloom
  import F = FlowTable
  import T = Telemetry

  /** What the blocks around the router present on one clock edge. */
  datatype Pins = Pins(
    arrival: Option<Frame>,      // the SPI slave completes this frame
    verdict: Option<Frame>,      // verdict_valid with verdict_frame
    estimate: Option<nat>,       // cms_done with cms_count
    snap: SnapResponse,          // the latched snapshot registers
    sum: nat, zeros: nat)        // the live HLL registers

  datatype Registers = Registers(
    rxFrame: Frame, rxValid: bool,                                             // outputs of the SPI slave
    inflightOp: Byte, frameCount: nat, seqReg: nat,
    header: F.Header, fieldsValid: bool,                                       // the parser's fields and frame_idx
    thr: Thresholds, thrRVal: nat,
    rules: seq<RuleCell>, rRule: RuleCell,
    bloom: seq<B.Word>, bfRData: B.Word,
    qKey: Ip,
    ctrlPipe1: bool, ctrlPipe2: bool, ctrlOpLat: Byte, ctrlB01Lat: nat, ctrlB0Lat: Byte,
    tx: Frame)
  {
    ghost predicate Shaped() {
      |rules| == RULE_DEPTH && |bloom| == B.M_WORDS
    }

    /** The stores and the frame counter are those of a frame-level device. */
    ghost predicate Holds(n: Dev) {
      thr == n.thr && rules == n.rules && bloom == n.bloom && frameCount == n.frameCount
    }
  }

  predicate IsControl(op: Byte) {
    op / 16 == 1
  }

  // ----- the frame in service -----

  /** Idle before the first frame, or serving f, which the device d received `age` edges ago. */
  datatype Service = Idle(d: Dev) | Serving(d: Dev, f: Frame, age: nat, answered: bool) {
    ghost predicate Valid() {
      d.Valid()
    }

    /** The frame's blocks have answered and its reply has had time to settle. */
    ghost predicate Settled() {
      Serving? ==> age >= 4 && (f[16] == OP_CLASSIFY || f[16] == OP_QUERY ==> answered)
    }

    /** The device after the frame. */
    ghost function Done(): (n: Dev)
      requires Valid()
      ensures n.Valid()
    {
      if Idle? then d else Respond(d, f)
    }

    /** One edge later; a frame that arrives finds the device after any number of window ticks. */
    ghost function After(i: Pins, ticks: nat): (s: Service)
      requires Valid()
      ensures s.Valid()
    {
      if i.arrival.Some? then Serving(TicksOf(Done(), ticks), i.arrival.value, 0, false)
      else if Idle? then this
      else Serving(d, f, age + 1, answered || i.verdict.Some? || i.estimate.Some?)
    }

    /** What the environment owes on one edge: no frame before the last is settled, the verdict and the
        estimate only on request and correct, and the telemetry's registers correct when they are read. */
    ghost predicate Honest(i: Pins)
      requires Valid()
    {
      && (i.arrival.Some? ==> Settled())
      && (i.verdict.Some? ==>
            Serving? && age >= 1 && f[16] == OP_CLASSIFY && i.verdict.value == EncodeVerdict(VerdictOn(d, f)))
      && (i.estimate.Some? ==>
            Serving? && age >= 2 && f[16] == OP_QUERY && i.estimate.value == T.After(d.events).cms.Query(SourceOf(f)))
      && (Serving? && age == 1 && f[16] == OP_SNAPSHOT ==> i.snap == Response(SnapRegisters(d.events)))
      && (Serving? && age == 1 && f[16] == OP_HLL ==>
            var hll := T.After(d.events).hll; (i.sum as int, i.zeros as int) == (hll.harmonicSum, hll.zeros))
    }
  }

  // ----- the machine's invariant -----

  /** No valid flag is up. */
  ghost predicate Quiet(k: Registers) {
    !k.rxValid && !k.fieldsValid && !k.ctrlPipe1 && !k.ctrlPipe2
  }

  /** The values handed to the classifiers and the verdict encoder. */
  ghost predicate Handed(k: Registers, d: Dev, f: Frame) {
    k.inflightOp == f[16] && k.header == Parse(f, d.frameCount) && k.seqReg == (d.frameCount + 1) % 256
  }

  /** What the control pipeline has latched for the reply. */
  ghost predicate LatchedFor(k: Registers, f: Frame) {
    IsControl(f[16]) ==> k.ctrlOpLat == f[16] && k.ctrlB01Lat == Half(f, 0) && k.ctrlB0Lat == f[0]
  }

  ghost predicate BloomRead(k: Registers, d: Dev, f: Frame)
    requires d.Valid()
  {
    f[16] == OP_BLOOM_R ==> k.bfRData == d.bloom[Half(f, 0) % 0x1000]
  }

  /** The reply register `age` edges after a frame that settles at the given age. */
  ghost predicate ReplyIn(k: Registers, s: Service)
    requires s.Serving? && s.Valid()
  {
    k.tx == if (if s.f[16] == OP_CLASSIFY || s.f[16] == OP_QUERY then s.answered
                else s.age >= if IsControl(s.f[16]) then 4 else 2)
            then Respond(s.d, s.f).tx else s.d.tx
  }

  ghost predicate Sound(k: Registers, s: Service)
    requires s.Valid()
  {
    && k.Shaped()
    && if s.Idle? then Quiet(k) && k.Holds(s.d) && k.tx == s.d.tx
       else
         var d, f, n := s.d, s.f, Respond(s.d, s.f);
         && k.rxFrame == f && ReplyIn(k, s) && (s.answered ==> s.age > 1)
         && match s.age
            case 0 => Quiet(k.(rxValid := false)) && k.rxValid && k.Holds(d)
            case 1 => Quiet(k.(fieldsValid := false)) && k.fieldsValid && k.(frameCount := d.frameCount).Holds(d)
                      && k.frameCount == n.frameCount && Handed(k, d, f)
            case 2 => Quiet(k.(ctrlPipe1 := false)) && k.Holds(n) && Handed(k, d, f) && LatchedFor(k, f)
                      && k.ctrlPipe1 == IsControl(f[16]) && BloomRead(k, d, f)
                      && (f[16] == OP_QUERY ==> k.qKey == SourceOf(f))
            case 3 => Quiet(k.(ctrlPipe2 := false)) && k.Holds(n) && Handed(k, d, f) && LatchedFor(k, f)
                      && k.ctrlPipe2 == IsControl(f[16]) && BloomRead(k, d, f)
                      && (f[16] == OP_QUERY ==> k.qKey == SourceOf(f))
                      && (f[16] == OP_THRESH_R ==> k.thrRVal == ReadThreshold(d.thr, f[0]))
                      && (f[16] == OP_RULE_R ==> k.rRule == d.rules[Half(f, 0) % 0x200])
            case _ => Quiet(k) && k.Holds(n) && Handed(k, d, f) && (f[16] == OP_QUERY ==> k.qKey == SourceOf(f))
  }

  /** Once a frame is settled, the reply register and every store are those of the frame-level device. */
  lemma SettledIsDone(k: Registers, s: Service)
    requires s.Valid() && Sound(k, s) && s.Settled()
    ensures k.tx == s.Done().tx && k.Holds(s.Done())
  {
    hide Respond, SourceOf;
  }

  /** What the router hands on while it serves a frame. */
  lemma HandsOn(k: Registers, s: Service)
    requires s.Valid() && Sound(k, s)
    ensures k.fieldsValid <==> s.Serving? && s.age == 1
    ensures s.Serving? && s.age >= 1 ==> Handed(k, s.d, s.f)
    ensures k.thr == if s.Idle? || s.age <= 1 then s.d.thr else s.Done().thr
    ensures k.bloom == if s.Idle? || s.age <= 1 then s.d.bloom else s.Done().bloom
    ensures k.rules == if s.Idle? || s.age <= 1 then s.d.rules else s.Done().rules
  {
    hide Respond, SourceOf, Parse, Half;
  }

  // ----- one edge -----

  // What one rising edge does to each group of registers; everything on the right is an old value.

  /** The SPI slave's outputs, the per-frame latches and the parser. */
  ghost predicate Received(k: Registers, n: Registers, i: Pins) {
    && n.rxValid == i.arrival.Some? && n.rxFrame == (if i.arrival.Some? then i.arrival.value else k.rxFrame)
    && n.fieldsValid == k.rxValid
    && if k.rxValid then
         && n.inflightOp == k.rxFrame[16] && n.header == Parse(k.rxFrame, k.frameCount)
         && n.frameCount == Word16(k.frameCount + 1) && n.seqReg == (k.frameCount + 1) % 256
       else
         n.inflightOp == k.inflightOp && n.header == k.header && n.frameCount == k.frameCount && n.seqReg == k.seqReg
  }

  /** The thresholds, the rule store, port B of the Bloom memory and the queried key. */
  ghost predicate Stored(k: Registers, n: Registers)
    requires k.Shaped()
  {
    var f, op := k.rxFrame, k.inflightOp;
    && n.thr == (if k.fieldsValid && op == OP_THRESH_W then WriteThreshold(k.thr, f[0], Half(f, 1)) else k.thr)
    && n.thrRVal == ReadThreshold(k.thr, f[0])
    && n.rules == (if k.fieldsValid && op == OP_RULE_W then k.rules[Half(f, 0) % 0x200 := f[2..11]] else k.rules)
    && n.rRule == k.rules[if op == OP_RULE_R then Half(f, 0) % 0x200 else LookupIdx(k.header.src)]
    && n.bloom == (if k.fieldsValid && op == OP_BLOOM_W then k.bloom[Half(f, 0) % 0x1000 := Half(f, 2)] else k.bloom)
    && n.bfRData == (if k.fieldsValid && op == OP_BLOOM_R then k.bloom[Half(f, 0) % 0x1000] else k.bfRData)
    && n.qKey == (if k.fieldsValid && op == OP_QUERY then k.header.src else k.qKey)
  }

  /** The two-edge delay of the control replies. */
  ghost predicate Piped(k: Registers, n: Registers) {
    var now := k.fieldsValid && IsControl(k.inflightOp);
    && n.ctrlPipe1 == now && n.ctrlPipe2 == k.ctrlPipe1
    && (n.ctrlOpLat, n.ctrlB01Lat, n.ctrlB0Lat) ==
         if now then (k.inflightOp, Half(k.rxFrame, 0), k.rxFrame[0]) else (k.ctrlOpLat, k.ctrlB01Lat, k.ctrlB0Lat)
  }

  function ControlReply(k: Registers): Frame {
    match k.ctrlOpLat
    case 0x10 => Ack(OP_BLOOM_W)
    case 0x11 => Ack(OP_THRESH_W)
    case 0x12 => Ack(OP_RULE_W)
    case 0x13 => BloomReply(k.ctrlB01Lat, k.bfRData)
    case 0x14 => ThresholdReply(k.ctrlB0Lat, k.thrRVal)
    case 0x15 => RuleReply(k.ctrlB01Lat, k.rRule)
    case _ => k.tx
  }

  ghost predicate Muxed(k: Registers, n: Registers, i: Pins) {
    n.tx ==
      if k.ctrlPipe2 && 0x10 <= k.ctrlOpLat <= 0x15 then ControlReply(k)
      else if k.inflightOp == OP_CLASSIFY && i.verdict.Some? then i.verdict.value
      else if k.inflightOp == OP_QUERY && i.estimate.Some? then EncodeQuery(k.qKey, i.estimate.value)
      else if k.inflightOp == OP_SNAPSHOT && k.fieldsValid then EncodeSnapshot(i.snap)
      else if k.inflightOp == OP_HLL && k.fieldsValid then EncodeHll(i.sum, i.zeros, 2048)
      else k.tx
  }

  /** All always-blocks on one rising edge out of reset. */
  method Edge(k: Registers, i: Pins) returns (n: Registers)
    requires k.Shaped()
    ensures n.Shaped() && Received(k, n, i) && Stored(k, n) && Piped(k, n) && Muxed(k, n, i)
  {
    hide Half, Word16, LookupIdx, Parse, ControlReply, EncodeQuery, EncodeSnapshot, EncodeHll, WriteThreshold,
      ReadThreshold;
    n := Receive(k, i);
    n := Stores(k, n);
    var now := k.fieldsValid && IsControl(k.inflightOp);
    n := n.(ctrlPipe1 := now, ctrlPipe2 := k.ctrlPipe1);
    if now {
      n := n.(ctrlOpLat := k.inflightOp, ctrlB01Lat := Half(k.rxFrame, 0), ctrlB0Lat := k.rxFrame[0]);
    }
    var tx := Mux(k, i);
    n := n.(tx := tx);
  }

  method Receive(k: Registers, i: Pins) returns (n: Registers)
    ensures Received(k, n, i)
    ensures n == k.(rxValid := n.rxValid, rxFrame := n.rxFrame, inflightOp := n.inflightOp, frameCount := n.frameCount,
                    seqReg := n.seqReg, header := n.header, fieldsValid := n.fieldsValid)
  {
    hide Parse, Word16;
    n := k.(rxValid := i.arrival.Some?, fieldsValid := k.rxValid);
    if i.arrival.Some? {
      n := n.(rxFrame := i.arrival.value);
    }
    if k.rxValid {
      n := n.(inflightOp := k.rxFrame[16], frameCount := Word16(k.frameCount + 1));
      n := n.(seqReg := (k.frameCount + 1) % 256, header := Parse(k.rxFrame, k.frameCount));
    }
  }

  method Stores(k: Registers, n0: Registers) returns (n: Registers)
    requires k.Shaped()
    requires (n0.thr, n0.rules, n0.bloom, n0.bfRData, n0.qKey) == (k.thr, k.rules, k.bloom, k.bfRData, k.qKey)
    ensures n.Shaped() && Stored(k, n)
    ensures n == n0.(thr := n.thr, thrRVal := n.thrRVal, rules := n.rules, rRule := n.rRule, bloom := n.bloom,
                     bfRData := n.bfRData, qKey := n.qKey)
  {
    hide Half, LookupIdx, WriteThreshold, ReadThreshold;
    var f, op := k.rxFrame, k.inflightOp;
    n := n0.(thrRVal := ReadThreshold(k.thr, f[0]),
             rRule := k.rules[if op == OP_RULE_R then Half(f, 0) % 0x200 else LookupIdx(k.header.src)]);
    if k.fieldsValid {
      match op {
        case 0x01 => n := n.(qKey := k.header.src);
        case 0x10 => n := n.(bloom := k.bloom[Half(f, 0) % 0x1000 := Half(f, 2)]);
        case 0x11 => n := n.(thr := WriteThreshold(k.thr, f[0], Half(f, 1)));
        case 0x12 => n := n.(rules := k.rules[Half(f, 0) % 0x200 := f[2..11]]);
        case 0x13 => n := n.(bfRData := k.bloom[Half(f, 0) % 0x1000]);
        case _ =>
      }
    }
  }

  /** The reply register's next value: the second case statement overrides the first. */
  method Mux(k: Registers, i: Pins) returns (tx: Frame)
    ensures Muxed(k, k.(tx := tx), i)
  {
    hide Ack, BloomReply, ThresholdReply, RuleReply, EncodeQuery, EncodeSnapshot, EncodeHll;
    tx := k.tx;
    match k.inflightOp {
      case 0x00 => if i.verdict.Some? { tx := i.verdict.value; }
      case 0x01 => if i.estimate.Some? { tx := EncodeQuery(k.qKey, i.estimate.value); }
      case 0x02 => if k.fieldsValid { tx := EncodeSnapshot(i.snap); }
      case 0x03 => if k.fieldsValid { tx := EncodeHll(i.sum, i.zeros, 2048); }
      case _ =>
    }
    if k.ctrlPipe2 && 0x10 <= k.ctrlOpLat <= 0x15 {
      tx := ControlReply(k);
    }
  }

  // ----- the invariant is kept -----

  /** The frame-level device's stores and reply, opcode by opcode. */
  lemma Effects(d: Dev, f: Frame)
    requires d.Valid()
    ensures var n, op := Respond(d, f), f[16];
      && n.frameCount == Word16(d.frameCount + 1)
      && n.thr == (if op == OP_THRESH_W then WriteThreshold(d.thr, f[0], Half(f, 1)) else d.thr)
      && n.rules == (if op == OP_RULE_W then d.rules[Half(f, 0) % 0x200 := f[2..11]] else d.rules)
      && n.bloom == (if op == OP_BLOOM_W then d.bloom[Half(f, 0) % 0x1000 := Half(f, 2)] else d.bloom)
  {
    hide Half, Word16, VerdictOn, QueryReply, SnapshotReply, HllReply, Ack, BloomReply, ThresholdReply, RuleReply;
    hide WriteThreshold, ReadThreshold, SourceOf;
  }

  lemma Replies(d: Dev, f: Frame)
    requires d.Valid()
    ensures var tx, op := Respond(d, f).tx, f[16];
      && (op == OP_CLASSIFY ==> tx == EncodeVerdict(VerdictOn(d, f)))
      && (op == OP_QUERY ==> tx == EncodeQuery(SourceOf(f), T.After(d.events).cms.Query(SourceOf(f))))
      && (op == OP_SNAPSHOT ==> tx == EncodeSnapshot(Response(SnapRegisters(d.events))))
      && (op == OP_HLL ==> tx == HllReply(d.events))
      && (OP_BLOOM_W <= op <= OP_RULE_W ==> tx == Ack(op))
      && (op == OP_BLOOM_R ==> tx == BloomReply(Half(f, 0), d.bloom[Half(f, 0) % 0x1000]))
      && (op == OP_THRESH_R ==> tx == ThresholdReply(f[0], ReadThreshold(d.thr, f[0])))
      && (op == OP_RULE_R ==> tx == RuleReply(Half(f, 0), d.rules[Half(f, 0) % 0x200]))
      && (op > OP_RULE_R || OP_HLL < op < OP_BLOOM_W ==> tx == d.tx)
  {
    hide Half, Word16, VerdictOn, EncodeVerdict, EncodeQuery, EncodeSnapshot, HllReply, Response, SnapRegisters;
    hide Ack, BloomReply, ThresholdReply, RuleReply, WriteThreshold, ReadThreshold, SourceOf, T.After;
  }

  /** One edge takes k to n under the pins i. */
  ghost predicate Clocked(k: Registers, n: Registers, i: Pins) {
    k.Shaped() && n.Shaped() && Received(k, n, i) && Stored(k, n) && Piped(k, n) && Muxed(k, n, i)
  }

  /** Before and after its service a frame's registers stay, but for a repeated answer. */
  lemma Rests(k: Registers, n: Registers, i: Pins, s: Service)
    requires s.Valid() && Sound(k, s) && s.Honest(i) && Clocked(k, n, i)
    requires s.Idle? || s.age >= 4
    ensures Quiet(n.(rxValid := false)) && n.Holds(s.Done())
    ensures n.tx == if s.Serving? && (i.verdict.Some? || i.estimate.Some?) then s.Done().tx else k.tx
    ensures s.Serving? ==> Handed(n, s.d, s.f) && (s.f[16] == OP_QUERY ==> n.qKey == SourceOf(s.f))
  {
    hide Respond, Half, Parse, SourceOf, Word16, LookupIdx, VerdictOn, T.After, EncodeVerdict, EncodeQuery,
      EncodeSnapshot, EncodeHll;
    hide WriteThreshold, ReadThreshold, ControlReply, Response, SnapRegisters;
    if s.Serving? {
      Replies(s.d, s.f);
    }
  }

  /** A frame arrives: it finds the device after the frame before. */
  lemma FrameArrives(k: Registers, n: Registers, i: Pins, s: Service, ticks: nat)
    requires s.Valid() && Sound(k, s) && s.Honest(i) && Clocked(k, n, i)
    requires i.arrival.Some?
    ensures Sound(n, s.After(i, ticks))
  {
    Rests(k, n, i, s);
    SettledIsDone(k, s);
    TicksKeepStores(s.Done(), ticks);
    hide Respond, TicksOf, SourceOf, Clocked, Handed;
  }

  lemma TicksKeepStores(d: Dev, ticks: nat)
    requires d.Valid()
    ensures var m := TicksOf(d, ticks);
      m.tx == d.tx && m.rules == d.rules && m.thr == d.thr && m.bloom == d.bloom && m.frameCount == d.frameCount
  {
  }

  /** Nothing arrives before the first frame or after a frame has been served. */
  lemma NothingArrives(k: Registers, n: Registers, i: Pins, s: Service, ticks: nat)
    requires s.Valid() && Sound(k, s) && s.Honest(i) && Clocked(k, n, i)
    requires i.arrival.None? && (s.Idle? || s.age >= 4)
    ensures Sound(n, s.After(i, ticks))
  {
    Rests(k, n, i, s);
    hide Respond, SourceOf, Clocked, Handed;
  }

  /** The first edge latches the opcode, the numbers and the source. */
  lemma FieldsLatched(k: Registers, n: Registers, i: Pins, s: Service, ticks: nat)
    requires s.Valid() && Sound(k, s) && s.Honest(i) && Clocked(k, n, i)
    requires s.Serving? && s.age == 0
    ensures Sound(n, s.After(i, ticks))
  {
    hide Respond, Half, Parse, SourceOf, Word16, LookupIdx, VerdictOn, T.After, EncodeVerdict, EncodeQuery,
      EncodeSnapshot, EncodeHll;
    hide WriteThreshold, ReadThreshold, ControlReply, Response, SnapRegisters;
    Effects(s.d, s.f);
  }

  lemma ParseSource(f: Frame, count: nat)
    ensures Parse(f, count).src == SourceOf(f)
  {
  }

  /** The second edge writes, reads the Bloom memory and answers the telemetry opcodes. */
  lemma FieldsServed(k: Registers, n: Registers, i: Pins, s: Service, ticks: nat)
    requires s.Valid() && Sound(k, s) && s.Honest(i) && Clocked(k, n, i)
    requires s.Serving? && s.age == 1
    ensures Sound(n, s.After(i, ticks))
  {
    hide Respond, Half, Parse, SourceOf, Word16, LookupIdx, VerdictOn, T.After, EncodeVerdict, EncodeQuery,
      EncodeSnapshot, EncodeHll;
    hide WriteThreshold, ReadThreshold, ControlReply, Response, SnapRegisters;
    ParseSource(s.f, s.d.frameCount);
    Effects(s.d, s.f);
    Replies(s.d, s.f);
  }

  /** The third edge registers the threshold and the rule that a read asks for. */
  lemma ReadsSettle(k: Registers, n: Registers, i: Pins, s: Service, ticks: nat)
    requires s.Valid() && Sound(k, s) && s.Honest(i) && Clocked(k, n, i)
    requires s.Serving? && s.age == 2
    ensures Sound(n, s.After(i, ticks))
  {
    hide Respond, Half, Parse, SourceOf, Word16, LookupIdx, VerdictOn, T.After, EncodeVerdict, EncodeQuery,
      EncodeSnapshot, EncodeHll;
    hide WriteThreshold, ReadThreshold, ControlReply, Response, SnapRegisters;
    Effects(s.d, s.f);
    Replies(s.d, s.f);
  }

  /** The fourth edge loads the control reply. */
  lemma ControlReplies(k: Registers, n: Registers, i: Pins, s: Service, ticks: nat)
    requires s.Valid() && Sound(k, s) && s.Honest(i) && Clocked(k, n, i)
    requires s.Serving? && s.age == 3
    ensures Sound(n, s.After(i, ticks))
  {
    hide Respond, Half, Parse, SourceOf, Word16, LookupIdx, VerdictOn, T.After, EncodeVerdict, EncodeQuery,
      EncodeSnapshot, EncodeHll;
    hide WriteThreshold, ReadThreshold, Response, SnapRegisters, Ack, BloomReply, ThresholdReply, RuleReply;
    Effects(s.d, s.f);
    Replies(s.d, s.f);
  }

  lemma EdgeKeeps(k: Registers, n: Registers, i: Pins, s: Service, ticks: nat)
    requires s.Valid() && Sound(k, s) && s.Honest(i) && Clocked(k, n, i)
    ensures Sound(n, s.After(i, ticks))
  {
    hide Sound, Clocked, Service.After;
    if i.arrival.Some? {
      FrameArrives(k, n, i, s, ticks);
    } else if s.Idle? || s.age >= 4 {
      NothingArrives(k, n, i, s, ticks);
    } else {
      match s.age {
        case 0 => FieldsLatched(k, n, i, s, ticks);
        case 1 => FieldsServed(k, n, i, s, ticks);
        case 2 => ReadsSettle(k, n, i, s, ticks);
        case _ => ControlReplies(k, n, i, s, ticks);
      }
    }
  }

  lemma ShapedWhenSound(k: Registers, s: Service)
    requires s.Valid() && Sound(k, s)
    ensures k.Shaped()
  {
  }

  /** The registers that no reset clears hold zeros at power-up. */
  function RegistersAtReset(bloom: seq<B.Word>): Registers {
    Registers(Flush(), false, 0, 0, 0, Parse(Flush(), 0), false, Thresholds(5, 5, 8, 0), 0, BlankCells(), BlankCell(),
              bloom, 0, 0, false, false, 0, 0, 0, Flush())
  }

  /** The device after its reset. */
  function AtReset(bloom: seq<B.Word>, flow: seq<F.Cell>): (d: Dev)
    requires |bloom| == B.M_WORDS && |flow| == F.DEPTH
    ensures d.Valid()
  {
    Dev(Flush(), 0, BlankCells(), Thresholds(5, 5, 8, 0), bloom, flow, [])
  }
}
