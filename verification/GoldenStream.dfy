/** The golden stream of the silicon round trip (gen_verdict_golden.py, scenarios.py): nothing in it
    collides in the older table within an epoch, so the round trip passes on it. */
module GoldenStream {
  import opened Words
  import opened Stream
  import opened Wire
  import opened Device
  import opened Link
  import opened SiliconCheck
  import B = Bloom
  import F = FlowTable
  import R = Reference
  import S = ScanRate

  // ----- the stream -----

  function Hdr(src: Ip, dst: Ip, srcPort: nat, dstPort: nat, proto: nat, flags: nat): (f: Frame)
    ensures f[16] == OP_CLASSIFY && SourceOf(f) == src
  {
    ClassifyFields(src, dst, srcPort, dstPort, proto, flags, 60);
    BuildClassify(src, dst, srcPort, dstPort, proto, flags, 60)
  }

  function V1Bloom(): (fs: seq<Frame>)
    ensures |fs| == 6
  {
    [Hdr(0xC0000201, 0xC0000202, 12345, 80, 6, 2), Hdr(0xC0000201, 0xC6336401, 12345, 443, 6, 2),
     Hdr(0xCB007105, 0xC0000201, 12345, 80, 6, 2), Hdr(0xC0000232, 0xC0000263, 12345, 53, 17, 0),
     Hdr(0x0A000001, 0x0A000002, 12345, 53, 17, 0), Hdr(0xC6336401, 0xCB007105, 12345, 80, 6, 2)]
  }

  function Benign(): (fs: seq<Frame>)
    ensures |fs| == 3
  {
    [Hdr(0x0A000001, 0x0A000002, 12345, 443, 6, 0x18), Hdr(0x0A000003, 0x0A000004, 53, 53, 17, 0),
     Hdr(0x0A000005, 0x08080808, 40000, 443, 6, 0x18)]
  }

  const VSCAN_PORTS := [1, 3, 7, 13, 21]

  function VScan(): (fs: seq<Frame>)
    ensures |fs| == 5
  {
    seq(5, i requires 0 <= i < 5 => Hdr(0xCB007106, 0xC0000201, 40000, VSCAN_PORTS[i], 6, 2))
  }

  function Flood(): (fs: seq<Frame>)
    ensures |fs| == 8
  {
    seq(8, i requires 0 <= i < 8 => Hdr(0xC0000220, 0xC0000221, 1000 + i, 9999, 17, 0))
  }

  function HScan(): (fs: seq<Frame>)
    ensures |fs| == 5
  {
    seq(5, i requires 0 <= i < 5 => Hdr(0xCB007107, 0xC0000201 + i, 40000, 8080, 6, 2))
  }

  const BSCAN_PORTS := [1, 2, 3, 4, 6]

  /** Four ports of the boundary scan. */
  function BoundaryScan(): (fs: seq<Frame>)
    ensures |fs| == 4
  {
    seq(4, i requires 0 <= i < 4 => Hdr(0xCB007108, 0xC0000201, 40000, BSCAN_PORTS[i], 6, 2))
  }

  function Fillers(): (fs: seq<Frame>)
    ensures |fs| == 12
  {
    seq(12, i requires 0 <= i < 12 => Hdr(0x0A000010 + i, 0xC0000202, 5000, 53, 17, 0))
  }

  /** The 17th frame lies in the next window. */
  function Boundary(): (fs: seq<Frame>)
    ensures |fs| == 17
  {
    BoundaryScan() + Fillers() + [Hdr(0xCB007108, 0xC0000201, 40000, BSCAN_PORTS[4], 6, 2)]
  }

  function Combined(): (fs: seq<Frame>)
    ensures |fs| == 8
  {
    seq(8, i requires 0 <= i < 8 => Hdr(0xC6336401, 0xC0000221, 1000 + i, 9999, 17, 0))
  }

  function Pad(i: nat): Frame
    requires i < 0x1000
  {
    Hdr(0x0A001000 + i, 0xC0000202, 5000, 53, 17, 0)
  }

  /** Padding frames number `from` to from + n - 1. */
  function Pads(from: nat, n: nat): (fs: seq<Frame>)
    requires from + n <= 0x1000
    ensures |fs| == n
  {
    if n == 0 then [] else Pads(from, n - 1) + [Pad(from + n - 1)]
  }

  /** The stream: each scenario starts on a window boundary. */
  function Frames(): (fs: seq<Frame>)
    ensures |fs| == 120
  {
    hide V1Bloom, Pads, Benign, VScan, Flood, HScan, Boundary, Combined;
    V1Bloom() + Pads(0, 10) + Benign() + Pads(10, 13) + VScan() + Pads(23, 11) + Flood() + Pads(34, 8)
    + HScan() + Pads(42, 11) + Boundary() + Pads(53, 15) + Combined()
  }

  /** How many frames n frames lack to a full window. */
  function PadCount(n: nat): (p: nat)
    ensures p < 16
  {
    if n % 16 == 0 then 0 else 16 - n % 16
  }

  lemma PadStep(n: nat)
    ensures PadCount(n) == 0 <==> n % 16 == 0
    ensures n % 16 != 0 ==> PadCount(n) == PadCount(n + 1) + 1
  {
    assert n == 16 * (n / 16) + n % 16;
  }

  lemma PadCounts()
    ensures PadCount(6) == 10 && PadCount(19) == 13 && PadCount(37) == 11 && PadCount(56) == 8
    ensures PadCount(69) == 11 && PadCount(97) == 15
  {
  }

  method PadToWindow(stream: seq<Frame>, fill: nat) returns (padded: seq<Frame>, fill': nat)
    requires fill + 16 <= 0x1000
    ensures padded == stream + Pads(fill, PadCount(|stream|)) && fill' == fill + PadCount(|stream|)
  {
    hide PadCount, Pad;
    padded, fill' := stream, fill;
    PadStep(|stream|);
    while |padded| % 16 != 0
      invariant fill <= fill' && fill' - fill + PadCount(|padded|) == PadCount(|stream|)
      invariant padded == stream + Pads(fill, fill' - fill)
      decreases PadCount(|padded|)
    {
      PadStep(|padded|);
      padded := padded + [Pad(fill')];
      fill' := fill' + 1;
    }
    PadStep(|padded|);
  }

  method BuildStream() returns (stream: seq<Frame>)
    ensures stream == Frames()
  {
    hide V1Bloom, Benign, VScan, Flood, HScan, Boundary, Combined, Pads, PadCount;
    PadCounts();
    var fill := 0;
    stream := V1Bloom();
    stream, fill := PadToWindow(stream, fill);
    stream := stream + Benign();
    stream, fill := PadToWindow(stream, fill);
    stream := stream + VScan();
    stream, fill := PadToWindow(stream, fill);
    stream := stream + Flood();
    stream, fill := PadToWindow(stream, fill);
    stream := stream + HScan();
    stream, fill := PadToWindow(stream, fill);
    stream := stream + Boundary();
    stream, fill := PadToWindow(stream, fill);
    stream := stream + Combined();
  }

  // ----- its sources in the older table -----

  /** A source and the 64-bit product whose bits give its bucket. */
  datatype Product = Product(ip: Ip, high: nat, bucket: nat, low: nat) {
    predicate Right() {
      ip > 0 && ip * A1 == high * TWO32 + bucket * 0x100_0000 + low && bucket < 256 && low < 0x100_0000
    }
  }

  lemma BucketIs(p: Product)
    requires p.Right()
    ensures S.ScanBucket(p.ip) == p.bucket
  {
    Digits(p.ip * A1, p.high, p.bucket, p.low);
  }

  lemma Digits(n: nat, high: nat, bucket: nat, low: nat)
    requires n == high * TWO32 + bucket * 0x100_0000 + low && bucket < 256 && low < 0x100_0000
    ensures n % TWO32 / 0x100_0000 == bucket
  {
    assert n % TWO32 == bucket * 0x100_0000 + low;
  }

  /** The sources of a window, in the order of their buckets. */
  predicate Ascending(t: seq<Product>) {
    forall i :: 0 < i < |t| ==> t[i - 1].bucket < t[i].bucket
  }

  predicate AllRight(t: seq<Product>) {
    forall i :: 0 <= i < |t| ==> t[i].Right()
  }

  lemma {:induction false} AscendingIsDistinct(t: seq<Product>, i: nat, j: nat)
    requires Ascending(t) && i < j < |t|
    ensures t[i].bucket < t[j].bucket
  {
    if i + 1 == j {
    } else {
      AscendingIsDistinct(t, i, j - 1);
    }
  }

  const W0: seq<Product> := [
    Product(0xC0000232, 0x76A99CA0, 0x15, 0xC92692), Product(0x0A001006, 0x62E34A8, 0x16, 0xE7EA26),
    Product(0x0A001003, 0x62E34A6, 0x3C, 0x417D13), Product(0x0A001008, 0x62E34A9, 0x53, 0x56DD88),
    Product(0x0A001000, 0x62E34A4, 0x61, 0x9B1000), Product(0xC6336401, 0x7A7EAAFA, 0x6E, 0x039DB1),
    Product(0x0A001005, 0x62E34A7, 0x78, 0xB07075), Product(0x0A000001, 0x62E2AC1, 0x88, 0x3779B1),
    Product(0x0A001002, 0x62E34A5, 0x9E, 0x0A0362), Product(0x0A001007, 0x62E34A8, 0xB5, 0x1F63D7),
    Product(0xC0000201, 0x76A99C81, 0xCD, 0x2ADBB1), Product(0x0A001004, 0x62E34A6, 0xDA, 0x78F6C4),
    Product(0xCB007105, 0x7D764358, 0xEE, 0xCC8175), Product(0x0A001009, 0x62E34A9, 0xF1, 0x8E5739),
    Product(0x0A001001, 0x62E34A4, 0xFF, 0xD289B1)]

  const W1: seq<Product> := [
    Product(0x0A000005, 0x62E2AC4, 0x01, 0x156075), Product(0x0A00100E, 0x62E34AD, 0x08, 0xA3B7AE),
    Product(0x0A001013, 0x62E34B0, 0x1F, 0xB91823), Product(0x0A00100B, 0x62E34AB, 0x2D, 0xFD4A9B),
    Product(0x0A001010, 0x62E34AE, 0x45, 0x12AB10), Product(0x0A001015, 0x62E34B1, 0x5C, 0x280B85),
    Product(0x0A00100D, 0x62E34AC, 0x6A, 0x6C3DFD), Product(0x0A001012, 0x62E34AF, 0x81, 0x819E72),
    Product(0x0A000001, 0x62E2AC1, 0x88, 0x3779B1), Product(0x0A00100A, 0x62E34AA, 0x8F, 0xC5D0EA),
    Product(0x0A00100F, 0x62E34AD, 0xA6, 0xDB315F), Product(0x0A001014, 0x62E34B0, 0xBD, 0xF091D4),
    Product(0x0A000003, 0x62E2AC2, 0xC4, 0xA66D13), Product(0x0A00100C, 0x62E34AB, 0xCC, 0x34C44C),
    Product(0x0A001011, 0x62E34AE, 0xE3, 0x4A24C1), Product(0x0A001016, 0x62E34B1, 0xFA, 0x5F8536)]

  const W2: seq<Product> := [
    Product(0x0A00101B, 0x62E34B5, 0x11, 0x74E5AB), Product(0x0A001020, 0x62E34B8, 0x28, 0x8A4620),
    Product(0x0A001018, 0x62E34B3, 0x36, 0xCE7898), Product(0x0A00101D, 0x62E34B6, 0x4D, 0xE3D90D),
    Product(0x0A00101A, 0x62E34B4, 0x73, 0x3D6BFA), Product(0x0A00101F, 0x62E34B7, 0x8A, 0x52CC6F),
    Product(0xCB007106, 0x7D764359, 0x8D, 0x03FB26), Product(0x0A001017, 0x62E34B2, 0x98, 0x96FEE7),
    Product(0x0A00101C, 0x62E34B5, 0xAF, 0xAC5F5C), Product(0x0A001021, 0x62E34B8, 0xC6, 0xC1BFD1),
    Product(0x0A001019, 0x62E34B3, 0xD5, 0x05F249), Product(0x0A00101E, 0x62E34B6, 0xEC, 0x1B52BE)]

  const W3: seq<Product> := [
    Product(0x0A001023, 0x62E34BA, 0x03, 0x30B333), Product(0x0A001028, 0x62E34BD, 0x1A, 0x4613A8),
    Product(0x0A001025, 0x62E34BB, 0x3F, 0x9FA695), Product(0x0A001022, 0x62E34B9, 0x64, 0xF93982),
    Product(0x0A001027, 0x62E34BC, 0x7C, 0x0E99F7), Product(0x0A001024, 0x62E34BA, 0xA1, 0x682CE4),
    Product(0x0A001029, 0x62E34BD, 0xB8, 0x7D8D59), Product(0x0A001026, 0x62E34BB, 0xDD, 0xD72046),
    Product(0xC0000220, 0x76A99C94, 0xF5, 0xE29820)]

  const W4: seq<Product> := [
    Product(0x0A001030, 0x62E34C2, 0x0C, 0x01E130), Product(0xCB007107, 0x7D76435A, 0x2B, 0x3B74D7),
    Product(0x0A00102D, 0x62E34C0, 0x31, 0x5B741D), Product(0x0A001032, 0x62E34C3, 0x48, 0x70D492),
    Product(0x0A00102A, 0x62E34BE, 0x56, 0xB5070A), Product(0x0A00102F, 0x62E34C1, 0x6D, 0xCA677F),
    Product(0x0A001034, 0x62E34C4, 0x84, 0xDFC7F4), Product(0x0A00102C, 0x62E34BF, 0x93, 0x23FA6C),
    Product(0x0A001031, 0x62E34C2, 0xAA, 0x395AE1), Product(0x0A00102E, 0x62E34C0, 0xCF, 0x92EDCE),
    Product(0x0A001033, 0x62E34C3, 0xE6, 0xA84E43), Product(0x0A00102B, 0x62E34BE, 0xF4, 0xEC80BB)]

  const W5: seq<Product> := [
    Product(0x0A000012, 0x62E2ACC, 0x09, 0xE68E72), Product(0x0A000017, 0x62E2ACF, 0x20, 0xFBEEE7),
    Product(0x0A000014, 0x62E2ACD, 0x46, 0x5581D4), Product(0x0A000019, 0x62E2AD0, 0x5D, 0x6AE249),
    Product(0x0A000011, 0x62E2ACB, 0x6B, 0xAF14C1), Product(0x0A000016, 0x62E2ACE, 0x82, 0xC47536),
    Product(0x0A00001B, 0x62E2AD1, 0x99, 0xD9D5AB), Product(0x0A000013, 0x62E2ACC, 0xA8, 0x1E0823),
    Product(0x0A000018, 0x62E2ACF, 0xBF, 0x336898), Product(0xCB007108, 0x7D76435A, 0xC9, 0x72EE88),
    Product(0x0A000010, 0x62E2ACA, 0xCD, 0x779B10), Product(0x0A000015, 0x62E2ACD, 0xE4, 0x8CFB85),
    Product(0x0A00001A, 0x62E2AD0, 0xFB, 0xA25BFA)]

  const W6: seq<Product> := [
    Product(0x0A00103D, 0x62E34CA, 0x14, 0xD30F2D), Product(0x0A001035, 0x62E34C5, 0x23, 0x1741A5),
    Product(0x0A001042, 0x62E34CD, 0x2B, 0xE86FA2), Product(0x0A00103A, 0x62E34C8, 0x3A, 0x2CA21A),
    Product(0x0A00103F, 0x62E34CB, 0x51, 0x42028F), Product(0x0A001037, 0x62E34C6, 0x5F, 0x863507),
    Product(0x0A00103C, 0x62E34C9, 0x76, 0x9B957C), Product(0x0A001041, 0x62E34CC, 0x8D, 0xB0F5F1),
    Product(0x0A001039, 0x62E34C7, 0x9B, 0xF52869), Product(0x0A00103E, 0x62E34CA, 0xB3, 0x0A88DE),
    Product(0x0A001036, 0x62E34C5, 0xC1, 0x4EBB56), Product(0xCB007108, 0x7D76435A, 0xC9, 0x72EE88),
    Product(0x0A001043, 0x62E34CD, 0xCA, 0x1FE953), Product(0x0A00103B, 0x62E34C8, 0xD8, 0x641BCB),
    Product(0x0A001040, 0x62E34CB, 0xEF, 0x797C40), Product(0x0A001038, 0x62E34C6, 0xFD, 0xBDAEB8)]

  const W7: seq<Product> := [
    Product(0xC6336401, 0x7A7EAAFA, 0x6E, 0x039DB1)]

  lemma AscendingW0()
    ensures Ascending(W0)
  {
  }

  lemma RightW0()
    ensures AllRight(W0)
  {
  }

  lemma AscendingW1()
    ensures Ascending(W1)
  {
  }

  lemma RightW1()
    ensures AllRight(W1)
  {
  }

  lemma AscendingW2()
    ensures Ascending(W2)
  {
  }

  lemma RightW2()
    ensures AllRight(W2)
  {
  }

  lemma AscendingW3()
    ensures Ascending(W3)
  {
  }

  lemma RightW3()
    ensures AllRight(W3)
  {
  }

  lemma AscendingW4()
    ensures Ascending(W4)
  {
  }

  lemma RightW4()
    ensures AllRight(W4)
  {
  }

  lemma AscendingW5()
    ensures Ascending(W5)
  {
  }

  lemma RightW5()
    ensures AllRight(W5)
  {
  }

  lemma AscendingW6()
    ensures Ascending(W6)
  {
  }

  lemma RightW6()
    ensures AllRight(W6)
  {
  }

  lemma AscendingW7()
    ensures Ascending(W7)
  {
  }

  lemma RightW7()
    ensures AllRight(W7)
  {
  }

  function Table(w: nat): seq<Product> {
    if w == 0 then W0 else if w == 1 then W1 else if w == 2 then W2 else if w == 3 then W3
    else if w == 4 then W4 else if w == 5 then W5 else if w == 6 then W6 else if w == 7 then W7 else []
  }

  lemma TablesDistinct(w: nat)
    ensures AllRight(Table(w)) && Ascending(Table(w))
  {
    hide AllRight, Ascending, W0, W1, W2, W3, W4, W5, W6, W7;
    assert AllRight([]) && Ascending([]) by { EmptyTable(); }
    RightW0(); RightW1(); RightW2(); RightW3(); RightW4(); RightW5(); RightW6(); RightW7();
    AscendingW0(); AscendingW1(); AscendingW2(); AscendingW3();
    AscendingW4(); AscendingW5(); AscendingW6(); AscendingW7();
  }

  lemma EmptyTable()
    ensures AllRight([]) && Ascending([])
  {
  }

  /** A classify frame of a source in the window's table. */
  ghost predicate Listed(f: Frame, w: nat) {
    f[16] == OP_CLASSIFY && exists i :: 0 <= i < |Table(w)| && Table(w)[i].ip == SourceOf(f)
  }

  ghost predicate ListedIn(fs: seq<Frame>, w: nat) {
    forall k :: 0 <= k < |fs| ==> Listed(fs[k], w)
  }

  ghost predicate AllListed(fs: seq<Frame>) {
    forall k :: 0 <= k < |fs| ==> Listed(fs[k], k / 16)
  }

  lemma Append(fs: seq<Frame>, part: seq<Frame>, w: nat)
    requires AllListed(fs) && ListedIn(part, w) && 16 * w <= |fs| && |fs| + |part| <= 16 * w + 16
    ensures AllListed(fs + part)
  {
    hide Listed;
  }

  lemma SameSource(fs: seq<Frame>, w: nat, i: nat)
    requires i < |Table(w)|
    requires forall k :: 0 <= k < |fs| ==> fs[k][16] == OP_CLASSIFY && SourceOf(fs[k]) == Table(w)[i].ip
    ensures ListedIn(fs, w)
  {
  }

  /** at[i] is the place of padding source from + i in the window's table. */
  ghost predicate PadsAt(w: nat, from: nat, at: seq<nat>) {
    forall i :: 0 <= i < |at| ==> at[i] < |Table(w)| && Table(w)[at[i]].ip == 0x0A001000 + from + i
  }

  lemma PadListed(w: nat, i: nat, at: nat)
    requires i < 0x1000 && at < |Table(w)| && Table(w)[at].ip == 0x0A001000 + i
    ensures Listed(Pad(i), w)
  {
    hide Table, SourceOf;
  }

  lemma {:induction false} PadsListed(w: nat, from: nat, at: seq<nat>)
    requires from + |at| <= 0x1000 && PadsAt(w, from, at)
    ensures ListedIn(Pads(from, |at|), w)
  {
    hide Table, Listed, Pad;
    if at == [] {
    } else {
      PadsListed(w, from, Init(at));
      PadListed(w, from + |at| - 1, Last(at));
    }
  }

  lemma V1BloomListed()
    ensures ListedIn(V1Bloom(), 0)
  {
    hide Hdr, SourceOf;
    assert Table(0)[10].ip == SourceOf(V1Bloom()[0]);
    assert Table(0)[10].ip == SourceOf(V1Bloom()[1]);
    assert Table(0)[12].ip == SourceOf(V1Bloom()[2]);
    assert Table(0)[0].ip == SourceOf(V1Bloom()[3]);
    assert Table(0)[7].ip == SourceOf(V1Bloom()[4]);
    assert Table(0)[5].ip == SourceOf(V1Bloom()[5]);
  }

  lemma BenignListed()
    ensures ListedIn(Benign(), 1)
  {
    hide Hdr, SourceOf;
    assert Table(1)[8].ip == SourceOf(Benign()[0]);
    assert Table(1)[12].ip == SourceOf(Benign()[1]);
    assert Table(1)[0].ip == SourceOf(Benign()[2]);
  }

  lemma Pads0Listed()
    ensures ListedIn(Pads(0, 10), 0)
  {
    hide Pads, Pad;
    PadsListed(0, 0, [4, 14, 8, 2, 11, 6, 1, 9, 3, 13]);
  }

  lemma Pads1Listed()
    ensures ListedIn(Pads(10, 13), 1)
  {
    hide Pads, Pad;
    PadsListed(1, 10, [9, 3, 13, 6, 1, 10, 4, 14, 7, 2, 11, 5, 15]);
  }

  lemma Pads2Listed()
    ensures ListedIn(Pads(23, 11), 2)
  {
    hide Pads, Pad;
    PadsListed(2, 23, [7, 2, 10, 4, 0, 8, 3, 11, 5, 1, 9]);
  }

  lemma Pads3Listed()
    ensures ListedIn(Pads(34, 8), 3)
  {
    hide Pads, Pad;
    PadsListed(3, 34, [3, 0, 5, 2, 7, 4, 1, 6]);
  }

  lemma Pads4Listed()
    ensures ListedIn(Pads(42, 11), 4)
  {
    hide Pads, Pad;
    PadsListed(4, 42, [4, 11, 7, 2, 9, 5, 0, 8, 3, 10, 6]);
  }

  lemma Pads6Listed()
    ensures ListedIn(Pads(53, 15), 6)
  {
    hide Pads, Pad;
    PadsListed(6, 53, [1, 10, 5, 15, 8, 3, 13, 6, 0, 9, 4, 14, 7, 2, 12]);
  }

  lemma FillersListed()
    ensures ListedIn(Fillers(), 5)
  {
    var at: seq<nat> := [10, 4, 0, 7, 2, 11, 5, 1, 8, 3, 12, 6];
    forall k | 0 <= k < 12
      ensures Listed(Fillers()[k], 5)
    {
      assert Table(5)[at[k]].ip == 0x0A000010 + k;
    }
  }

  lemma VScanListed()
    ensures ListedIn(VScan(), 2)
  {
    SameSource(VScan(), 2, 6);
  }

  lemma FloodListed()
    ensures ListedIn(Flood(), 3)
  {
    SameSource(Flood(), 3, 8);
  }

  lemma HScanListed()
    ensures ListedIn(HScan(), 4)
  {
    SameSource(HScan(), 4, 1);
  }

  lemma BoundaryScanListed()
    ensures ListedIn(BoundaryScan(), 5)
  {
    SameSource(BoundaryScan(), 5, 9);
  }

  lemma CombinedListed()
    ensures ListedIn(Combined(), 7)
  {
    SameSource(Combined(), 7, 0);
  }

  lemma BoundarySplits() returns (last: seq<Frame>)
    ensures Boundary() == BoundaryScan() + Fillers() + last && |last| == 1 && ListedIn(last, 6)
  {
    last := [Boundary()[16]];
    SameSource(last, 6, 11);
  }

  /** Every frame of the stream is listed in the table of its window. */
  lemma FramesListed()
    ensures AllListed(Frames()) && |Frames()| == 120
  {
    hide V1Bloom, Benign, VScan, Flood, HScan, Boundary, BoundaryScan, Fillers, Combined, Pads, ListedIn, AllListed,
      Listed;
    var fs := FirstHalf();
    fs := SecondHalf(fs);
  }

  lemma FirstHalf() returns (fs: seq<Frame>)
    ensures fs == V1Bloom() + Pads(0, 10) + Benign() + Pads(10, 13) + VScan() + Pads(23, 11) + Flood() + Pads(34, 8)
    ensures AllListed(fs) && |fs| == 64
  {
    hide V1Bloom, Benign, VScan, Flood, Pads, ListedIn, AllListed, Listed;
    NothingListed();
    V1BloomListed();
    fs := Appended([], V1Bloom(), 0);
    assert fs == V1Bloom();
    Pads0Listed();
    fs := Appended(fs, Pads(0, 10), 0);
    BenignListed();
    fs := Appended(fs, Benign(), 1);
    Pads1Listed();
    fs := Appended(fs, Pads(10, 13), 1);
    VScanListed();
    fs := Appended(fs, VScan(), 2);
    Pads2Listed();
    fs := Appended(fs, Pads(23, 11), 2);
    FloodListed();
    fs := Appended(fs, Flood(), 3);
    Pads3Listed();
    fs := Appended(fs, Pads(34, 8), 3);
  }

  lemma SecondHalf(first: seq<Frame>) returns (fs: seq<Frame>)
    requires AllListed(first) && |first| == 64
    ensures fs == first + HScan() + Pads(42, 11) + Boundary() + Pads(53, 15) + Combined()
    ensures AllListed(fs) && |fs| == 120
  {
    hide HScan, Boundary, BoundaryScan, Fillers, Combined, Pads, ListedIn, AllListed, Listed;
    HScanListed();
    fs := Appended(first, HScan(), 4);
    Pads4Listed();
    fs := Appended(fs, Pads(42, 11), 4);
    fs := BoundaryAppended(fs);
    Pads6Listed();
    fs := Appended(fs, Pads(53, 15), 6);
    CombinedListed();
    fs := Appended(fs, Combined(), 7);
  }

  lemma BoundaryAppended(first: seq<Frame>) returns (fs: seq<Frame>)
    requires AllListed(first) && |first| == 80
    ensures fs == first + Boundary() && AllListed(fs)
  {
    hide Boundary, BoundaryScan, Fillers, ListedIn, AllListed, Listed;
    var last := BoundarySplits();
    BoundaryScanListed();
    fs := Appended(first, BoundaryScan(), 5);
    FillersListed();
    fs := Appended(fs, Fillers(), 5);
    fs := Appended(fs, last, 6);
  }

  lemma NothingListed()
    ensures AllListed([])
  {
  }

  lemma Appended(fs: seq<Frame>, part: seq<Frame>, w: nat) returns (r: seq<Frame>)
    requires AllListed(fs) && ListedIn(part, w) && 16 * w <= |fs| && |fs| + |part| <= 16 * w + 16
    ensures r == fs + part && AllListed(r)
  {
    Append(fs, part, w);
    r := fs + part;
  }

  // ----- the round trip on it -----

  lemma ListedSources(f: Frame, g: Frame, w: nat)
    requires Listed(f, w) && Listed(g, w)
    ensures SourceOf(f) != 0
    ensures S.ScanBucket(SourceOf(f)) == S.ScanBucket(SourceOf(g)) ==> SourceOf(f) == SourceOf(g)
  {
    hide SourceOf, S.ScanBucket, Table;
    TablesDistinct(w);
    var t := Table(w);
    var i :| 0 <= i < |t| && t[i].ip == SourceOf(f);
    var j :| 0 <= j < |t| && t[j].ip == SourceOf(g);
    BucketIs(t[i]);
    BucketIs(t[j]);
    if i < j {
      AscendingIsDistinct(t, i, j);
    } else if j < i {
      AscendingIsDistinct(t, j, i);
    }
  }

  /** No two sources of the stream meet in one bucket of the older table during one epoch. */
  lemma FramesApart()
    ensures S.Apart(R.Headers(Frames()))
  {
    hide Frames, Parse, S.ScanBucket, Listed, SourceOf;
    FramesListed();
    var fs := Frames();
    var h := R.Headers(fs);
    R.FirstEpochsNeverReturn(fs);
    forall i, k | 0 <= i < |h| && 0 <= k < |h|
      && S.SameEpoch(h[i], h[k]) && S.ScanBucket(h[i].src) == S.ScanBucket(h[k].src)
      ensures h[i].src == h[k].src
    {
      R.NumberOfParse(fs[i], i);
      R.NumberOfParse(fs[k], k);
      ListedSources(fs[i], fs[k], i / 16);
    }
  }

  /** A device after its reset, with this filter loaded. */
  ghost predicate AfterReset(d: Dev, bits: seq<Byte>)
    requires |bits| == B.M_BYTES
  {
    && d.Valid() && d.frameCount == 0 && d.flow == F.Table([]) && d.bloom == B.BuildWords(bits)
    && d.rules == BlankCells() && d.thr == Thresholds(5, 5, 8, 0)
  }

  lemma FramesComparable(d: Dev, bits: seq<Byte>)
    requires |bits| == B.M_BYTES && AfterReset(d, bits)
    ensures R.Comparable(d, Frames(), bits)
  {
    hide Frames, Parse, SourceOf, S.Apart, F.Table, B.BuildWords, Listed, LookupIdx, DecodeRule;
    FramesListed();
    FramesApart();
    BlankDecodes();
    var fs := Frames();
    forall f | f in fs
      ensures f[16] == OP_CLASSIFY && !LookupRule(d.rules, SourceOf(f), EpochTap(d.thr)).matches
    {
      var k :| 0 <= k < |fs| && fs[k] == f;
      ListedSources(f, f, k / 16);
      ListedClassifies(f, k / 16);
    }
  }

  lemma ListedClassifies(f: Frame, w: nat)
    requires Listed(f, w)
    ensures f[16] == OP_CLASSIFY
  {
  }

  /** The silicon round trip on a device after reset, whatever addresses its filter holds: the golden
      table comes from a new reference classifier, and every verdict that comes back matches it. */
  method VerdictCheck(link: Link, bloom: B.BloomFilter, thresholds: F.Thresholds) returns (r: RunResult)
    requires link.Valid() && link.log == [] && bloom.bits.Length == B.M_BYTES
    requires AfterReset(link.first, bloom.bits[..])
    requires thresholds.Current() == F.Limits(5, 5, 8)
    modifies link
    ensures r.Judged? && r.passed
  {
    hide Frames, R.Comparable, AfterReset, R.Expected, VerdictOn, Consecutive, Dev.Valid, Respond;
    assert Limits(link.first.thr) == F.Limits(5, 5, 8) by { ResetLimits(link.first, bloom.bits[..]); }
    FramesComparable(link.first, bloom.bits[..]);
    var headers := BuildStream();
    var golden := R.Golden(bloom, thresholds, headers);
    r := R.SiliconRun(link, headers, golden, bloom.bits[..]);
  }

  lemma ResetLimits(d: Dev, bits: seq<Byte>)
    requires |bits| == B.M_BYTES && AfterReset(d, bits)
    ensures Limits(d.thr) == F.Limits(5, 5, 8)
  {
  }
}
