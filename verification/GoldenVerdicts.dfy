/** The golden verdicts (VERDICT_GOLDEN.md): which frames of the golden stream the device reports, and as
    what. */
module GoldenVerdicts {
  import opened Words
  import opened Stream
  import opened Wire
  import opened Device
  import opened GoldenStream
  import B = Bloom
  import F = FlowTable
  import P = Fpga
  import R = Reference
  import S = ScanRate

  // ----- a scenario that starts a window -----

  /** All frames are of one source. */
  ghost predicate OfSource(block: seq<Frame>, src: Ip) {
    block != [] && forall f <- block :: SourceOf(f) == src
  }

  /** The headers of a block, numbered on from the frames before it. */
  ghost function BlockHeaders(before: seq<Frame>, block: seq<Frame>): (g: seq<F.Header>)
    ensures |g| == |block| && forall i :: 0 <= i < |g| ==> g[i] == Parse(block[i], |before| + i)
  {
    seq(|block|, i requires 0 <= i < |block| => Parse(block[i], |before| + i))
  }

  /** A block that starts window w is the current run of its source. */
  lemma BlockRun(before: seq<Frame>, block: seq<Frame>, w: nat, src: Ip)
    requires |before| == 16 * w && w < 16 && |block| <= 16 && OfSource(block, src)
    ensures var h := R.Headers(before + block);
      Last(h).src == src && F.Run(h, F.Bucket(src)) == BlockHeaders(before, block)
  {
    hide Parse, SourceOf, F.Run, F.Epoch, F.Bucket;
    var h, g, fs := R.Headers(before), BlockHeaders(before, block), before + block;
    assert R.Headers(fs) == h + g;
    forall k | 0 <= k < |fs|
      ensures R.Headers(fs)[k].src == SourceOf(fs[k]) && F.Epoch(R.Headers(fs)[k].frameCount) == k / 16
    {
      R.NumberOfParse(fs[k], k);
    }
    forall p | p in g
      ensures p.src == src && F.Epoch(p.frameCount) == w
    {
      var i :| 0 <= i < |g| && g[i] == p;
      assert R.Headers(fs)[16 * w + i] == p && fs[16 * w + i] == block[i] && block[i] in block;
    }
    forall p | p in h
      ensures F.Epoch(p.frameCount) != w
    {
      var i :| 0 <= i < |h| && h[i] == p;
      assert R.Headers(fs)[i] == p;
    }
    assert Last(h + g) == Last(g) && Last(g) in g;
    F.FreshRun(h, g, src, w);
  }

  // ----- what a block's packets address -----

  predicate IsSyn(f: Frame) {
    f[12] == 6 && f[13] / 2 % 2 == 1 && f[13] / 16 % 2 == 0
  }

  /** Bit by bit: the ports and hosts of the SYN frames among these. */
  ghost function PortsOf(block: seq<Frame>): set<nat> {
    set f <- block | IsSyn(f) :: F.PortBit(Field(f, 10, 2))
  }

  ghost function HostsOf(block: seq<Frame>): set<nat> {
    set f <- block | IsSyn(f) :: F.HostBit(DestOf(f))
  }

  lemma BlockBits(before: seq<Frame>, block: seq<Frame>)
    ensures var g := BlockHeaders(before, block); F.PortBits(g) == PortsOf(block) && F.HostBits(g) == HostsOf(block)
  {
    hide F.PortBit, F.HostBit, FlagBits, SourceOf, DestOf, Field;
    var g := BlockHeaders(before, block);
    forall i | 0 <= i < |block|
      ensures IsSyn(block[i]) <==> g[i].proto == 6 && 1 in g[i].tcpFlags && 4 !in g[i].tcpFlags
      ensures g[i].dstPort == Field(block[i], 10, 2) && g[i].dst == DestOf(block[i]) && g[i] in g && block[i] in block
    {
      SynOnTheWire(block[i], |before| + i);
    }
  }

  /** What the device reports on a block's last frame, under the thresholds after reset. */
  lemma BlockVerdict(before: seq<Frame>, block: seq<Frame>, w: nat, src: Ip)
    requires |before| == 16 * w && w < 16 && |block| <= 16 && OfSource(block, src)
    ensures F.VerdictAfter(R.Headers(before + block), F.Limits(5, 5, 8))
      == (|PortsOf(block)| >= 5 || |HostsOf(block)| >= 5, |block| >= 8)
  {
    hide F.Run, F.Bucket, F.PortBits, F.HostBits, PortsOf, HostsOf, Parse, F.VerdictAfter;
    BlockRun(before, block, w, src);
    BlockBits(before, block);
    F.AlarmsAreExact(R.Headers(before + block), F.Limits(5, 5, 8));
  }

  // ----- the scenarios -----

  lemma HdrFields(src: Ip, dst: Ip, srcPort: nat, dstPort: nat, proto: nat, flags: nat)
    requires dstPort < 0x1_0000 && proto < 256 && flags < 256
    ensures var f := Hdr(src, dst, srcPort, dstPort, proto, flags);
      && SourceOf(f) == src && DestOf(f) == dst && Field(f, 10, 2) == dstPort && f[12] == proto && f[13] == flags
  {
    ClassifyFields(src, dst, srcPort, dstPort, proto, flags, 60);
    hide Field, BuildClassify;
  }

  /** The bits of the ports of the vertical scan, and of the hosts of the horizontal one. */
  const VSCAN_BITS := [8, 9, 10, 12, 15]
  const HSCAN_BITS := [12, 6, 0, 10, 4]

  lemma VScanBit(i: nat)
    requires i < 5
    ensures F.PortBit(VSCAN_PORTS[i]) == VSCAN_BITS[i]
  {
    DigitGroup(1, A2, 0x1000_0000, 0x0, 8, 0x5EBCA77);
    DigitGroup(3, A2, 0x1000_0000, 0x1, 9, 0x1C35F65);
    DigitGroup(7, A2, 0x1000_0000, 0x3, 10, 0x9728941);
    DigitGroup(13, A2, 0x1000_0000, 0x6, 12, 0xCF9480B);
    DigitGroup(21, A2, 0x1000_0000, 0xA, 15, 0xC579BC3);
  }

  lemma HScanBit(i: nat)
    requires i < 5
    ensures F.HostBit(0xC0000201 + i) == HSCAN_BITS[i]
  {
    DigitGroup(0xC0000201, A1, 0x1000_0000, 0x76A99C81, 12, 0xD2ADBB1);
    DigitGroup(0xC0000202, A1, 0x1000_0000, 0x76A99C82, 6, 0xB625562);
    DigitGroup(0xC0000203, A1, 0x1000_0000, 0x76A99C83, 0, 0x999CF13);
    DigitGroup(0xC0000204, A1, 0x1000_0000, 0x76A99C83, 10, 0x7D148C4);
    DigitGroup(0xC0000205, A1, 0x1000_0000, 0x76A99C84, 4, 0x608C275);
  }

  /** The first n of five distinct bits. */
  function FirstBits(bits: seq<nat>, n: nat): set<nat>
    requires n <= |bits|
  {
    if n == 0 then {} else FirstBits(bits, n - 1) + {bits[n - 1]}
  }

  lemma {:induction false} FirstBitsCount(bits: seq<nat>, n: nat)
    requires n <= |bits| && forall i, j :: 0 <= i < j < |bits| ==> bits[i] != bits[j]
    ensures |FirstBits(bits, n)| == n
  {
    if n == 0 {
    } else {
      FirstBitsCount(bits, n - 1);
      FirstBitsAre(bits, n - 1, bits[n - 1]);
    }
  }

  lemma {:induction false} FirstBitsAre(bits: seq<nat>, n: nat, b: nat)
    requires n <= |bits|
    ensures b in FirstBits(bits, n) <==> exists i :: 0 <= i < n && bits[i] == b
  {
    if n == 0 {
    } else {
      FirstBitsAre(bits, n - 1, b);
    }
  }

  /** SYN frames whose ports have the bits listed, or one port; likewise for hosts. */
  lemma PortsAre(block: seq<Frame>, bits: seq<nat>)
    requires block != [] && forall i :: 0 <= i < |block| ==> IsSyn(block[i])
    requires |block| <= |bits| && forall i, j :: 0 <= i < j < |bits| ==> bits[i] != bits[j]
    ensures (forall i :: 0 <= i < |block| ==> F.PortBit(Field(block[i], 10, 2)) == bits[i]) ==>
      |PortsOf(block)| == |block|
    ensures (forall i :: 0 <= i < |block| ==> F.HostBit(DestOf(block[i])) == bits[i]) ==>
      |HostsOf(block)| == |block|
  {
    hide F.PortBit, F.HostBit, Field, DestOf, IsSyn, FirstBits;
    FirstBitsCount(bits, |block|);
    if forall i :: 0 <= i < |block| ==> F.PortBit(Field(block[i], 10, 2)) == bits[i] {
      forall b: nat
        ensures b in PortsOf(block) <==> b in FirstBits(bits, |block|)
      {
        FirstBitsAre(bits, |block|, b);
        if i: nat :| i < |block| && bits[i] == b {
          assert block[i] in block;
        }
      }
      assert PortsOf(block) == FirstBits(bits, |block|);
    }
    if forall i :: 0 <= i < |block| ==> F.HostBit(DestOf(block[i])) == bits[i] {
      forall b: nat
        ensures b in HostsOf(block) <==> b in FirstBits(bits, |block|)
      {
        FirstBitsAre(bits, |block|, b);
        if i: nat :| i < |block| && bits[i] == b {
          assert block[i] in block;
        }
      }
      assert HostsOf(block) == FirstBits(bits, |block|);
    }
  }

  lemma OneTarget(block: seq<Frame>, x: nat)
    requires block != [] && forall f <- block :: IsSyn(f)
    ensures (forall f <- block :: F.PortBit(Field(f, 10, 2)) == x) ==> PortsOf(block) == {x}
    ensures (forall f <- block :: F.HostBit(DestOf(f)) == x) ==> HostsOf(block) == {x}
  {
    hide F.PortBit, F.HostBit, Field, DestOf, IsSyn;
    assert block[0] in block;
  }

  lemma VScanBlock(n: nat)
    requires 0 < n <= 5
    ensures OfSource(VScan()[..n], 0xCB007106) && |PortsOf(VScan()[..n])| == n && |HostsOf(VScan()[..n])| == 1
  {
    hide F.PortBit, F.HostBit, Hdr, Field, SourceOf, DestOf, PortsOf, HostsOf;
    var block := VScan()[..n];
    forall i | 0 <= i < n
      ensures SourceOf(block[i]) == 0xCB007106 && DestOf(block[i]) == 0xC0000201 && IsSyn(block[i])
      ensures F.PortBit(Field(block[i], 10, 2)) == VSCAN_BITS[i]
    {
      HdrFields(0xCB007106, 0xC0000201, 40000, VSCAN_PORTS[i], 6, 2);
      VScanBit(i);
    }
    PortsAre(block, VSCAN_BITS);
    OneTarget(block, F.HostBit(0xC0000201));
  }

  lemma HScanBlock(n: nat)
    requires 0 < n <= 5
    ensures OfSource(HScan()[..n], 0xCB007107) && |HostsOf(HScan()[..n])| == n && |PortsOf(HScan()[..n])| == 1
  {
    hide F.PortBit, F.HostBit, Hdr, Field, SourceOf, DestOf, PortsOf, HostsOf;
    var block := HScan()[..n];
    forall i | 0 <= i < n
      ensures SourceOf(block[i]) == 0xCB007107 && Field(block[i], 10, 2) == 8080 && IsSyn(block[i])
      ensures F.HostBit(DestOf(block[i])) == HSCAN_BITS[i]
    {
      HdrFields(0xCB007107, 0xC0000201 + i, 40000, 8080, 6, 2);
      HScanBit(i);
    }
    PortsAre(block, HSCAN_BITS);
    OneTarget(block, F.PortBit(8080));
  }

  lemma FloodBlock(n: nat)
    requires 0 < n <= 8
    ensures OfSource(Flood()[..n], 0xC0000220) && PortsOf(Flood()[..n]) == HostsOf(Flood()[..n]) == {}
    ensures OfSource(Combined()[..n], 0xC6336401) && PortsOf(Combined()[..n]) == HostsOf(Combined()[..n]) == {}
  {
    hide F.PortBit, F.HostBit, Hdr, Field, SourceOf, DestOf;
    forall i | 0 <= i < 8
      ensures SourceOf(Flood()[i]) == 0xC0000220 && !IsSyn(Flood()[i])
      ensures SourceOf(Combined()[i]) == 0xC6336401 && !IsSyn(Combined()[i])
    {
      HdrFields(0xC0000220, 0xC0000221, 1000 + i, 9999, 17, 0);
      HdrFields(0xC6336401, 0xC0000221, 1000 + i, 9999, 17, 0);
    }
  }

  // ----- the golden rows -----

  /** The n-th frame of a stream is reported so, under the thresholds after reset. */
  ghost predicate Reports(fs: seq<Frame>, n: int, scan: bool, rate: bool) {
    0 < n <= |fs| && F.VerdictAfter(R.Headers(fs[..n]), F.Limits(5, 5, 8)) == (scan, rate)
  }

  /** A block of the stream that starts a window. */
  lemma BlockRow(fs: seq<Frame>, before: seq<Frame>, block: seq<Frame>, rest: seq<Frame>, w: nat, src: Ip, n: nat)
    requires fs == before + (block + rest) && |before| == 16 * w && w < 16 && 0 < n <= |block| && n <= 16
    requires OfSource(block[..n], src)
    ensures Reports(fs, 16 * w + n, |PortsOf(block[..n])| >= 5 || |HostsOf(block[..n])| >= 5, n >= 8)
  {
    hide F.VerdictAfter, PortsOf, HostsOf, OfSource;
    assert fs[..16 * w + n] == before + block[..n];
    BlockVerdict(before, block[..n], w, src);
  }

  lemma BeforeVScan() returns (before: seq<Frame>, rest: seq<Frame>)
    ensures |before| == 32 && Frames() == before + (VScan() + rest)
  {
    hide V1Bloom, Pads, Benign, VScan, Flood, HScan, Boundary, Combined;
    before := V1Bloom() + Pads(0, 10) + Benign() + Pads(10, 13);
    rest := Pads(23, 11) + Flood() + Pads(34, 8) + HScan() + Pads(42, 11) + Boundary() + Pads(53, 15) + Combined();
    assert Frames() == before + (VScan() + rest);
  }

  lemma BeforeFlood() returns (before: seq<Frame>, rest: seq<Frame>)
    ensures |before| == 48 && Frames() == before + (Flood() + rest)
  {
    hide V1Bloom, Pads, Benign, VScan, Flood, HScan, Boundary, Combined;
    before := V1Bloom() + Pads(0, 10) + Benign() + Pads(10, 13) + VScan() + Pads(23, 11);
    rest := Pads(34, 8) + HScan() + Pads(42, 11) + Boundary() + Pads(53, 15) + Combined();
    assert Frames() == before + (Flood() + rest);
  }

  lemma BeforeHScan() returns (before: seq<Frame>, rest: seq<Frame>)
    ensures |before| == 64 && Frames() == before + (HScan() + rest)
  {
    hide V1Bloom, Pads, Benign, VScan, Flood, HScan, Boundary, Combined;
    before := V1Bloom() + Pads(0, 10) + Benign() + Pads(10, 13) + VScan() + Pads(23, 11) + Flood() + Pads(34, 8);
    rest := Pads(42, 11) + Boundary() + Pads(53, 15) + Combined();
    assert Frames() == before + (HScan() + rest);
  }

  lemma BeforeCombined() returns (before: seq<Frame>)
    ensures |before| == 112 && Frames() == before + (Combined() + [])
  {
    hide V1Bloom, Pads, Benign, VScan, Flood, HScan, Boundary, Combined;
    before := V1Bloom() + Pads(0, 10) + Benign() + Pads(10, 13) + VScan() + Pads(23, 11) + Flood() + Pads(34, 8)
      + HScan() + Pads(42, 11) + Boundary() + Pads(53, 15);
    assert Frames() == before + (Combined() + []);
  }

  /** The vertical scan is reported on its fifth frame, number 36, and not before; the horizontal one on its
      fifth, number 68. */
  lemma ScanRows(fs: seq<Frame>, n: nat)
    requires fs == Frames() && 0 < n <= 5
    ensures Reports(fs, 32 + n, n == 5, false) && Reports(fs, 64 + n, n == 5, false)
  {
    hide Frames, VScan, HScan, PortsOf, HostsOf, OfSource, Reports;
    var before, rest := BeforeVScan();
    VScanBlock(n);
    BlockRow(fs, before, VScan(), rest, 2, 0xCB007106, n);
    before, rest := BeforeHScan();
    HScanBlock(n);
    BlockRow(fs, before, HScan(), rest, 4, 0xCB007107, n);
  }

  /** Flood and combined attack are reported as a rate on their eighth frames, numbers 55 and 119, and not
      before. */
  lemma RateRows(fs: seq<Frame>, n: nat)
    requires fs == Frames() && 0 < n <= 8
    ensures Reports(fs, 48 + n, false, n == 8) && Reports(fs, 112 + n, false, n == 8)
  {
    hide Frames, Flood, Combined, PortsOf, HostsOf, OfSource, Reports;
    var before, rest := BeforeFlood();
    FloodBlock(n);
    BlockRow(fs, before, Flood(), rest, 3, 0xC0000220, n);
    before := BeforeCombined();
    BlockRow(fs, before, Combined(), [], 7, 0xC6336401, n);
  }

  // ----- the other rows -----

  const FIRST_SOURCES: seq<Ip> := [0xC0000201, 0xC0000201, 0xCB007105, 0xC0000232, 0x0A000001, 0xC6336401]

  /** The source of the k-th golden frame. */
  function SourceAt(k: nat): nat {
    if k < 6 then FIRST_SOURCES[k]
    else if k < 16 then 0x0A001000 + (k - 6)
    else if k < 19 then 0x0A000001 + 2 * (k - 16)
    else if k < 32 then 0x0A001000 + (k - 9)
    else if k < 37 then 0xCB007106
    else if k < 48 then 0x0A001000 + (k - 14)
    else if k < 56 then 0xC0000220
    else if k < 64 then 0x0A001000 + (k - 22)
    else if k < 69 then 0xCB007107
    else if k < 80 then 0x0A001000 + (k - 27)
    else if k < 84 then 0xCB007108
    else if k < 96 then 0x0A000010 + (k - 84)
    else if k < 97 then 0xCB007108
    else if k < 112 then 0x0A001000 + (k - 44)
    else 0xC6336401
  }

  ghost predicate SourcesFrom(part: seq<Frame>, at: nat) {
    forall j :: 0 <= j < |part| ==> SourceOf(part[j]) == SourceAt(at + j)
  }

  lemma Joined(fs: seq<Frame>, part: seq<Frame>) returns (r: seq<Frame>)
    requires SourcesFrom(fs, 0) && SourcesFrom(part, |fs|)
    ensures r == fs + part && SourcesFrom(r, 0)
  {
    hide SourceAt, SourceOf;
    r := fs + part;
    forall j | |fs| <= j < |r|
      ensures SourceOf(r[j]) == SourceAt(j)
    {
      assert r[j] == part[j - |fs|] && SourceOf(part[j - |fs|]) == SourceAt(|fs| + (j - |fs|));
    }
  }

  lemma {:induction false} PadSources(from: nat, n: nat, at: nat)
    requires from + n <= 0x1000 && forall k :: at <= k < at + n ==> SourceAt(k) == 0x0A001000 + from + (k - at)
    ensures SourcesFrom(Pads(from, n), at)
  {
    hide SourceAt, SourceOf, Pads;
    forall j | 0 <= j < n
      ensures SourceOf(Pads(from, n)[j]) == SourceAt(at + j)
    {
      PadSource(from, n, j);
      assert SourceAt(at + j) == 0x0A001000 + from + (at + j - at);
    }
  }

  lemma {:induction false} PadSource(from: nat, n: nat, j: nat)
    requires from + n <= 0x1000 && j < n
    ensures SourceOf(Pads(from, n)[j]) == 0x0A001000 + from + j
  {
    hide SourceOf, Hdr;
    if j == n - 1 {
    } else {
      PadSource(from, n - 1, j);
    }
  }

  lemma V1Sources()
    ensures SourcesFrom(V1Bloom(), 0) && SourcesFrom(Benign(), 16)
  {
    hide Hdr, SourceOf;
  }

  lemma ScenarioSources()
    ensures SourcesFrom(VScan(), 32) && SourcesFrom(Flood(), 48) && SourcesFrom(HScan(), 64)
    ensures SourcesFrom(Boundary(), 80) && SourcesFrom(Combined(), 112)
  {
    hide Hdr, SourceOf;
  }

  lemma GoldenSources(fs: seq<Frame>)
    requires fs == Frames()
    ensures SourcesFrom(fs, 0)
  {
    hide V1Bloom, Benign, VScan, Flood, HScan, Boundary, Combined, Pads, SourcesFrom;
    V1Sources();
    ScenarioSources();
    PadSources(0, 10, 6);
    PadSources(10, 13, 19);
    PadSources(23, 11, 37);
    PadSources(34, 8, 56);
    PadSources(42, 11, 69);
    PadSources(53, 15, 97);
    var r := Joined(V1Bloom(), Pads(0, 10));
    r := Joined(r, Benign());
    r := Joined(r, Pads(10, 13));
    r := Joined(r, VScan());
    r := Joined(r, Pads(23, 11));
    r := Joined(r, Flood());
    r := Joined(r, Pads(34, 8));
    r := Joined(r, HScan());
    r := Joined(r, Pads(42, 11));
    r := Joined(r, Boundary());
    r := Joined(r, Pads(53, 15));
    r := Joined(r, Combined());
  }

  /** No scan, flood or combined attack: benign traffic, padding, the first version's frames and the scan across
      a window boundary. */
  predicate Calm(k: nat) {
    k < 32 || 37 <= k < 48 || 56 <= k < 64 || 69 <= k < 112
  }

  /** Where a calm frame's source first sends in its window. */
  function FirstAt(k: nat): nat {
    if k == 1 then 0 else if 80 <= k < 84 then 80 else k
  }

  lemma CalmIsSparse(k: nat, i: nat)
    requires Calm(k) && i < FirstAt(k) && i / 16 == k / 16
    ensures SourceAt(i) != SourceAt(k)
  {
  }

  /** Of the frames from number `first` on, at most all are its source's. */
  lemma {:induction false} SentSince(fs: seq<Frame>, n: nat, x: Ip, w: nat, first: nat)
    requires n <= |fs| <= 256
    requires forall i :: 0 <= i < n && i < first && i / 16 == w ==> SourceOf(fs[i]) != x
    ensures F.Sent(R.Headers(fs[..n]), x, w) <= if n < first then 0 else n - first
  {
    hide Parse, SourceOf, F.Epoch;
    if n == 0 {
    } else {
      R.HeadersPrefix(fs, n - 1);
      assert Init(R.Headers(fs[..n])) == R.Headers(fs[..n - 1]);
      R.NumberOfParse(fs[n - 1], n - 1);
      SentSince(fs, n - 1, x, w, first);
    }
  }

  lemma CalmRows(fs: seq<Frame>, k: nat)
    requires fs == Frames() && Calm(k)
    ensures Reports(fs, k + 1, false, false)
  {
    hide Frames, Parse, SourceOf, SourceAt, F.Run, F.Bucket, F.Epoch, S.Apart, F.VerdictAfter, F.Sent;
    var h := R.Headers(fs[..k + 1]);
    R.HeadersPrefix(fs, k);
    R.NumberOfParse(fs[k], k);
    GoldenApart(fs, k + 1);
    var x := SourceOf(fs[k]);
    S.ApartSameRun(h);
    F.RunEndsWithLast(h);
    F.RunAtMostSent(h, F.Bucket(x), x);
    GoldenSources(fs);
    forall i | 0 <= i < k + 1 && i < FirstAt(k) && i / 16 == k / 16
      ensures SourceOf(fs[i]) != x
    {
      CalmIsSparse(k, i);
    }
    SentSince(fs, k + 1, x, k / 16, FirstAt(k));
    F.ShortRunIsQuiet(h, F.Limits(5, 5, 8));
  }

  lemma GoldenApart(fs: seq<Frame>, n: nat)
    requires fs == Frames() && n <= 120
    ensures S.Apart(R.Headers(fs[..n]))
  {
    hide Frames, S.Apart, Parse;
    FramesApart();
    assert R.Headers(fs[..n]) == R.Headers(fs)[..n];
    R.ApartInPrefix(R.Headers(fs), n);
  }

  /** The golden table: of the 120 frames exactly numbers 36 and 68 are reported as scans, and exactly 55 and 119
      for their rate. */
  lemma GoldenRows(fs: seq<Frame>, k: nat)
    requires fs == Frames() && k < 120
    ensures Reports(fs, k + 1, k == 36 || k == 68, k == 55 || k == 119)
  {
    hide Frames, Reports;
    if Calm(k) {
      CalmRows(fs, k);
    } else if k < 37 {
      ScanRows(fs, k - 31);
    } else if k < 56 {
      RateRows(fs, k - 47);
    } else if k < 69 {
      ScanRows(fs, k - 63);
    } else {
      RateRows(fs, k - 111);
    }
  }

  /** On the wire: the device's verdict on the k-th of a stream of classify frames has these two stage bits,
      wherever windows end and whatever its filter and rules hold: on the golden stream (AllClassify), those of
      GoldenRows. */
  lemma StageBits(first: Dev, ticks: nat -> nat, fs: seq<Frame>, k: nat, scan: bool, rate: bool)
    requires first.Valid() && first.frameCount == 0 && first.flow == F.Table([]) && first.thr == Thresholds(5, 5, 8, 0)
    requires (forall f <- fs :: f[16] == OP_CLASSIFY) && k < |fs| && Reports(fs, k + 1, scan, rate)
    ensures var mask := Respond(R.Before(first, fs, ticks, k), fs[k]).tx[1];
      mask / 2 % 2 == (if scan then 1 else 0) && mask / 4 % 2 == (if rate then 1 else 0)
  {
    hide Parse, VerdictOn, F.VerdictAfter, F.Table, R.Before, Respond;
    var d := R.Before(first, fs, ticks, k);
    R.StoresOnTheWay(first, fs, ticks, k);
    R.HeadersPrefix(fs, k);
    R.DevicePair(d, fs[k], R.Headers(fs[..k]), k);
    PendingMask(d, fs[k]);
  }

  /** The device behind the pins starts so, its filter the one loaded. */
  lemma BoardStartsReset(bits: seq<Byte>)
    requires |bits| == B.M_BYTES
    ensures AfterReset(P.First(B.BuildWords(bits)), bits)
  {
    hide B.BuildWords, F.Table, BlankCells;
  }

  /** All golden frames are classify frames. */
  lemma AllClassify()
    ensures forall f <- Frames() :: f[16] == OP_CLASSIFY
  {
    hide Frames, Listed;
    FramesListed();
    forall f | f in Frames()
      ensures f[16] == OP_CLASSIFY
    {
      var k :| 0 <= k < 120 && Frames()[k] == f;
      ListedClassifies(f, k / 16);
    }
  }

  lemma PendingMask(d: Dev, f: Frame)
    requires d.Valid() && f[16] == OP_CLASSIFY
    ensures var mask, v := Respond(d, f).tx[1], VerdictOn(d, f);
      mask / 2 % 2 == (if v.portScan then 1 else 0) && mask / 4 % 2 == (if v.rateAnomaly then 1 else 0)
  {
    hide VerdictOn, Serve, Word16, EncodeVerdict;
    FrameServed(d, f);
    VerdictLayout(VerdictOn(d, f));
  }
}
