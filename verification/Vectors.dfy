/** The published vectors of the frame formats and hashes: which bytes certain fields are on the wire. */
module Vectors {
  import opened Words
  import opened Wire
  import M = Master
  import B = Bloom

  /** A request: its first bytes, and its opcode in byte 16. */
  function Sends(head: Bytes, opcode: Byte): (f: Frame)
    requires |head| <= 16
  {
    Pad(head)[16 := opcode]
  }

  /** Numbers go out with their high byte first. */
  lemma HighByteFirst()
    ensures Be(0x0ABC, 2) == [0x0A, 0xBC] && Be(0xCB007105, 4) == [0xCB, 0x00, 0x71, 0x05]
    ensures Be(0x07FB92000000, 6) == [0x07, 0xFB, 0x92, 0x00, 0x00, 0x00]
    ensures FromBe([0x0A, 0xBC]) == 0x0ABC && FromBe([0xCB, 0x00, 0x71, 0x05]) == 0xCB007105
  {
    assert Be(0x0A, 1) == [0x0A];
    assert Be(0xCB, 1) == [0xCB] && Be(0xCB00, 2) == [0xCB, 0x00] && Be(0xCB0071, 3) == [0xCB, 0x00, 0x71];
    assert Be(0x07, 1) == [0x07] && Be(0x07FB, 2) == [0x07, 0xFB] && Be(0x07FB92, 3) == [0x07, 0xFB, 0x92];
    assert Be(0x07FB9200, 4) == [0x07, 0xFB, 0x92, 0x00] && Be(0x07FB920000, 5) == [0x07, 0xFB, 0x92, 0x00, 0x00];
    assert FromBe([0x0A]) == 0x0A;
    assert [0x0A, 0xBC][..1] == [0x0A];
    BeRoundTrip(0xCB007105, 4);
    Pow256Values();
  }

  lemma ShortNumbers()
    ensures Be(0, 2) == [0x00, 0x00] && Be(9, 2) == [0x00, 0x09] && Be(12, 2) == [0x00, 0x0C]
    ensures Be(42, 2) == [0x00, 0x2A] && Be(0xBEEF, 2) == [0xBE, 0xEF] && Be(2042, 2) == [0x07, 0xFA]
    ensures Be(2048, 2) == [0x08, 0x00] && Be(20, 4) == [0x00, 0x00, 0x00, 0x14]
  {
    assert Be(0, 1) == [0x00] && Be(0xBE, 1) == [0xBE] && Be(7, 1) == [0x07] && Be(8, 1) == [0x08];
    assert Be(0, 2) == [0x00, 0x00] && Be(0, 3) == [0x00, 0x00, 0x00];
  }

  // ----- verdicts -----

  lemma VerdictVectors()
    ensures EncodeVerdict(Verdict(true, false, false, false, false, 0, false, 1)) == Pad([0xA5, 0x00, 0x00, 0x00, 0x01])
    ensures EncodeVerdict(Verdict(true, true, false, false, false, 3, true, 2)) == Pad([0xA5, 0x01, 0x03, 0x01, 0x02])
  {
    hide Pad;
  }

  lemma StageVectors()
    ensures EncodeVerdict(Verdict(true, false, true, false, false, 2, false, 3)) == Pad([0xA5, 0x02, 0x02, 0x00, 0x03])
    ensures EncodeVerdict(Verdict(true, false, false, true, false, 1, false, 4)) == Pad([0xA5, 0x04, 0x01, 0x00, 0x04])
  {
    hide Pad;
  }

  /** All stages at once, and a number that wraps to 0. */
  lemma WrappedVectors()
    ensures EncodeVerdict(Verdict(true, true, true, true, false, 3, true, 5)) == Pad([0xA5, 0x07, 0x03, 0x01, 0x05])
    ensures EncodeVerdict(Verdict(true, true, false, false, false, 3, true, 256)) == Pad([0xA5, 0x01, 0x03, 0x01, 0x00])
    ensures !DecodeVerdict(Flush()).valid
  {
    hide Pad;
  }

  // ----- telemetry replies -----

  lemma QueryVector()
    ensures EncodeQuery(0xCB007105, 9) == Pad([0x5A, 0xCB, 0x00, 0x71, 0x05, 0x00, 0x09])
  {
    hide Be, Pad;
    HighByteFirst();
    ShortNumbers();
  }

  lemma SnapshotVector()
    ensures EncodeSnapshot(SnapResponse(0, 20, 0x07FB92000000, 2042, 9, 0xCB007105))
      == Pad([0x5A, 0x00, 0x00, 0x00, 0x00, 0x00, 0x14, 0x07, 0xFB, 0x92, 0x00, 0x00, 0x00, 0x07, 0xFA, 0x00, 0x09,
              0xCB, 0x00, 0x71, 0x05])
  {
    hide Be, Pad, WindowFields, LeaderFields;
    var s := SnapResponse(0, 20, 0x07FB92000000, 2042, 9, 0xCB007105);
    WindowVector(s);
    LeaderVector(s);
    var w: Bytes := [0x5A, 0x00, 0x00, 0x00, 0x00, 0x00, 0x14, 0x07, 0xFB, 0x92, 0x00, 0x00, 0x00];
    var l: Bytes := [0x07, 0xFA, 0x00, 0x09, 0xCB, 0x00, 0x71, 0x05];
    assert w + l == [0x5A, 0x00, 0x00, 0x00, 0x00, 0x00, 0x14, 0x07, 0xFB, 0x92, 0x00, 0x00, 0x00, 0x07, 0xFA, 0x00,
                     0x09, 0xCB, 0x00, 0x71, 0x05];
  }

  lemma WindowVector(s: SnapResponse)
    requires s.window == 0 && s.total == 20 && s.harmonicSum == 0x07FB92000000
    ensures WindowFields(s) == [0x5A, 0x00, 0x00, 0x00, 0x00, 0x00, 0x14, 0x07, 0xFB, 0x92, 0x00, 0x00, 0x00]
  {
    hide Be;
    HighByteFirst();
    ShortNumbers();
  }

  lemma LeaderVector(s: SnapResponse)
    requires s.zeros == 2042 && s.top1Count == 9 && s.top1Key == 0xCB007105
    ensures LeaderFields(s) == [0x07, 0xFA, 0x00, 0x09, 0xCB, 0x00, 0x71, 0x05]
  {
    hide Be;
    HighByteFirst();
    ShortNumbers();
  }

  lemma HllVectors()
    ensures EncodeHll(0x07FB92000000, 2042, 2048)
      == Pad([0x5A, 0x07, 0xFB, 0x92, 0x00, 0x00, 0x00, 0x07, 0xFA, 0x08, 0x00])
    ensures DecodeQuery(Flush()).BadFrame? && DecodeSnapshot(Flush()).BadFrame? && DecodeHll(Flush()).BadFrame?
  {
    hide Be, Pad;
    HighByteFirst();
    ShortNumbers();
  }

  // ----- control requests and replies -----

  lemma RequestVectors()
    ensures EncodeBloomWrite(0xABC, 0xBEEF) == Sends([0x0A, 0xBC, 0xBE, 0xEF], 0x10)
    ensures EncodeThresholdWrite(0x02, 12) == Sends([0x02, 0x00, 0x0C], 0x11)
    ensures EncodeRuleWrite(42, Rule(0xCB007105, 5, 3, 7))
      == Sends([0x00, 0x2A, 0xCB, 0x00, 0x71, 0x05, 0x05, 0x03, 0x07], 0x12)
    ensures EncodeBloomRead(0xABC) == Sends([0x0A, 0xBC], 0x13)
    ensures EncodeThresholdRead(0x02) == Sends([0x02], 0x14) && EncodeRuleRead(42) == Sends([0x00, 0x2A], 0x15)
    ensures SnapshotRequest() == Sends([], 0x02)
  {
    hide Be;
    HighByteFirst();
    ShortNumbers();
    var rule: Bytes := [0xCB, 0x00, 0x71, 0x05, 0x05, 0x03, 0x07, 0x00, 0x00];
    assert EncodeRule(Rule(0xCB007105, 5, 3, 7)) == rule;
    TrailingZeros([0x00, 0x2A, 0xCB, 0x00, 0x71, 0x05, 0x05, 0x03, 0x07], [0x00, 0x00]);
    assert [0x00, 0x2A] + rule == [0x00, 0x2A, 0xCB, 0x00, 0x71, 0x05, 0x05, 0x03, 0x07] + [0x00, 0x00];
  }

  lemma TrailingZeros(body: Bytes, zeros: Bytes)
    requires |body| + |zeros| <= FRAME_LEN && forall i :: 0 <= i < |zeros| ==> zeros[i] == 0
    ensures Pad(body + zeros) == Pad(body)
  {
  }

  lemma ReplyVectors()
    ensures Ack(0x10) == Pad([0x5A, 0x10]) && Ack(0x11) == Pad([0x5A, 0x11]) && Ack(0x12) == Pad([0x5A, 0x12])
    ensures BloomReply(0x0ABC, 0xBEEF) == Pad([0x5A, 0x0A, 0xBC, 0xBE, 0xEF])
    ensures ThresholdReply(0x02, 0x000C) == Pad([0x5A, 0x02, 0x00, 0x0C])
  {
    hide Be, Pad;
    HighByteFirst();
    ShortNumbers();
  }

  lemma RuleReplyVector()
    ensures RuleReply(0x002A, [0xCB, 0x00, 0x71, 0x05, 0x05, 0x03, 0x07, 0x00, 0x00])
      == Pad([0x5A, 0x00, 0x2A, 0xCB, 0x00, 0x71, 0x05, 0x05, 0x03, 0x07, 0x00, 0x00])
  {
    hide Be, Pad;
    HighByteFirst();
    ShortNumbers();
  }

  // ----- bits on the wire -----

  /** The link sends each byte with its high bit first. */
  lemma {:induction false} HighBitFirst(bytes: Bytes, i: nat, j: nat)
    requires i < |bytes| && j < 8
    ensures M.BitsOf(bytes)[8 * i + j] <==> bytes[i] as nat / Pow2(7 - j) % 2 == 1
  {
    if i == 0 {
      LowBitsAre(bytes[0], 8, j);
    } else {
      HighBitFirst(bytes[1..], i - 1, j);
    }
  }

  lemma {:induction false} LowBitsAre(x: nat, n: nat, j: nat)
    requires j < n
    ensures M.LowBits(x, n)[j] <==> x / Pow2(n - 1 - j) % 2 == 1
  {
    if j == n - 1 {
    } else {
      LowBitsAre(x / 2, n - 1, j);
      HalveTwice(x, Pow2(n - 2 - j));
    }
  }

  /** The last frame of the golden vertical scan. */
  lemma HeaderVector()
    ensures BuildClassify(0xCB007106, 0xC0000201, 40000, 21, 6, 2, 60)
      == Pad([0xCB, 0x00, 0x71, 0x06, 0xC0, 0x00, 0x02, 0x01, 0x9C, 0x40, 0x00, 0x15, 0x06, 0x02, 0x00, 0x3C])
  {
    HeaderNumbers();
    hide Be, Pad;
    var head: Bytes := [0xCB, 0x00, 0x71, 0x06, 0xC0, 0x00, 0x02, 0x01, 0x9C, 0x40, 0x00, 0x15, 0x06, 0x02, 0x00, 0x3C];
    var zero: Bytes := [0x00];
    assert [0xCB, 0x00, 0x71, 0x06] + [0xC0, 0x00, 0x02, 0x01] + [0x9C, 0x40] + [0x00, 0x15] + [0x06, 0x02]
      + [0x00, 0x3C] + zero == head + zero;
    TrailingZeros(head, zero);
  }

  lemma HeaderNumbers()
    ensures Be(0xCB007106, 4) == [0xCB, 0x00, 0x71, 0x06] && Be(0xC0000201, 4) == [0xC0, 0x00, 0x02, 0x01]
    ensures Be(40000, 2) == [0x9C, 0x40] && Be(21, 2) == [0x00, 0x15] && Be(60, 2) == [0x00, 0x3C]
  {
    assert Be(0xCB, 1) == [0xCB] && Be(0xCB00, 2) == [0xCB, 0x00] && Be(0xCB0071, 3) == [0xCB, 0x00, 0x71];
    assert Be(0xC0, 1) == [0xC0] && Be(0xC000, 2) == [0xC0, 0x00] && Be(0xC00002, 3) == [0xC0, 0x00, 0x02];
    assert Be(0x9C, 1) == [0x9C];
  }

  /** A line of the Bloom image: high digit first, in lower case. */
  lemma HexVectors()
    ensures B.Hex4(0x6E03) == "6e03" && B.Hex4(0x00B7) == "00b7"
  {
    HexDigits();
    hide B.HexDigit;
  }

  lemma HexDigits()
    ensures B.HexDigit(0) == '0' && B.HexDigit(3) == '3' && B.HexDigit(6) == '6' && B.HexDigit(7) == '7'
    ensures B.HexDigit(11) == 'b' && B.HexDigit(14) == 'e'
  {
  }
}
