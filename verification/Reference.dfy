/** The CPU reference classifier (classifier.py) and where the device gives the same verdicts. */
module Reference {
  import opened Words
  import opened Stream
  import opened Wire
  import opened Device
  import opened Link
  import B = Bloom
  import F = FlowTable
  import S = ScanRate
  import opened SiliconCheck

  /** A Bloom hit counts 3, a scan or rate hit 2; any hit escalates. */
  function Judge(bloom: bool, pair: (bool, bool), seqNo: nat): (v: Verdict)
    ensures v.severity < 4
  {
    Verdict(true, bloom, pair.0, pair.1, false, if bloom then 3 else if pair.0 || pair.1 then 2 else 0,
            bloom || pair.0 || pair.1, seqNo)
  }

  function FilterMember(bits: seq<Byte>, x: Ip): bool
    requires |bits| == B.M_BYTES
  {
    B.GetBit(bits, B.H1(x)) && B.GetBit(bits, B.H2(x))
  }

  class Classifier {
    const bloom: B.BloomFilter
    const table: S.ScanRateTable

    ghost predicate Valid()
      reads this, table
    {
      bloom.bits.Length == B.M_BYTES && table.Valid()
    }

    constructor (bloom: B.BloomFilter, thresholds: F.Thresholds)
      requires bloom.bits.Length == B.M_BYTES
      ensures Valid() && this.bloom == bloom && fresh(table)
      ensures table.thresholds == thresholds && table.t == S.ScanTable([])
    {
      this.bloom := bloom;
      table := new S.ScanRateTable(thresholds);
    }

    method Classify(f: Frame, seqNo: nat, frameCount: nat) returns (v: Frame)
      requires Valid()
      modifies table`t
      ensures Valid()
      ensures var p := Parse(f, frameCount);
        table.t == old(table.t)[S.ScanBucket(p.src) := S.Take(old(table.t)[S.ScanBucket(p.src)], p)]
      ensures var p := Parse(f, frameCount);
        v == EncodeVerdict(Judge(FilterMember(bloom.bits[..], p.src) || FilterMember(bloom.bits[..], p.dst),
                                 S.ScanVerdict(table.t[S.ScanBucket(p.src)], table.thresholds.Current()), seqNo))
    {
      hide Parse, EncodeVerdict, B.GetBit, B.H1, B.H2, S.Take, S.ScanVerdict, S.ScanBucket;
      var p := Parse(f, frameCount);
      var bloomHit := bloom.Member(p.src) || bloom.Member(p.dst);
      var portScan, rate := table.Update(p);
      var sev := 0;
      if bloomHit { sev := 3; }
      if portScan && sev < 2 { sev := 2; }
      if rate && sev < 2 { sev := 2; }
      v := EncodeVerdict(Verdict(true, bloomHit, portScan, rate, false, sev, bloomHit || portScan || rate, seqNo));
    }
  }

  /** The headers of a stream, numbered from 0. */
  function Headers(fs: seq<Frame>): (h: seq<F.Header>)
    ensures |h| == |fs| && forall k :: 0 <= k < |fs| ==> h[k] == Parse(fs[k], k)
  {
    seq(|fs|, k requires 0 <= k < |fs| => Parse(fs[k], k))
  }

  lemma HeadersPrefix(fs: seq<Frame>, k: nat)
    requires k < |fs|
    ensures Headers(fs[..k + 1]) == Headers(fs[..k]) + [Parse(fs[k], k)]
    ensures Headers(fs)[..k + 1] == Headers(fs[..k + 1])
  {
    hide Parse;
  }

  /** The reference's verdict on the k-th frame of a stream. */
  ghost function Expected(bits: seq<Byte>, lim: F.Limits, fs: seq<Frame>, k: nat): Verdict
    requires |bits| == B.M_BYTES && k < |fs|
  {
    var h := Headers(fs[..k + 1]);
    Judge(FilterMember(bits, Last(h).src) || FilterMember(bits, Last(h).dst), S.ScanVerdictAfter(h, lim), k + 1)
  }

  /** Feeding a new classifier a stream, numbered as the golden runs are. */
  method Golden(bloom: B.BloomFilter, thresholds: F.Thresholds, fs: seq<Frame>) returns (vs: seq<Frame>)
    requires bloom.bits.Length == B.M_BYTES
    ensures |vs| == |fs|
    ensures forall k :: 0 <= k < |fs| ==> vs[k] == EncodeVerdict(Expected(bloom.bits[..], thresholds.Current(), fs, k))
  {
    hide Parse, EncodeVerdict, FilterMember, S.ScanVerdict, S.Take, S.ScanBucket, Judge;
    var c := new Classifier(bloom, thresholds);
    vs := [];
    for k := 0 to |fs|
      invariant c.Valid() && c.bloom == bloom && c.table.thresholds == thresholds && fresh(c.table)
      invariant c.table.t == S.ScanTable(Headers(fs[..k])) && |vs| == k
      invariant forall i :: 0 <= i < k ==> vs[i] == EncodeVerdict(Expected(bloom.bits[..], thresholds.Current(), fs, i))
    {
      HeadersPrefix(fs, k);
      assert Init(Headers(fs[..k + 1])) == Headers(fs[..k]);
      var v := c.Classify(fs[k], k + 1, k);
      vs := vs + [v];
    }
  }

  // ----- the device on the same stream -----

  lemma EpochWraps(c: nat)
    ensures F.Epoch(Word16(c)) == F.Epoch(c)
  {
    var q := c / 0x1_0000;
    assert c == 0x1_0000 * q + Word16(c);
    assert c / 16 == 0x1000 * q + Word16(c) / 16;
    NibbleShift(Word16(c) / 16, 0x100 * q);
  }

  lemma NibbleShift(x: int, k: int)
    ensures Nibble(x + 16 * k) == Nibble(x)
  {
  }

  /** A cell depends on the frame number through the epoch only. */
  lemma AbsorbNumber(c: F.Cell, f: Frame, k: nat)
    ensures F.Absorb(c, Parse(f, Word16(k))) == F.Absorb(c, Parse(f, k))
    ensures Parse(f, Word16(k)).(frameCount := k) == Parse(f, k)
  {
    hide F.Epoch, F.Fp, F.PortBit, F.HostBit, SourceOf, DestOf, FlagBits, Word16;
    EpochWraps(k);
  }

  /** The device after k classify frames, just as the next one arrives. */
  ghost function Before(first: Dev, fs: seq<Frame>, ticks: nat -> nat, k: nat): (d: Dev)
    requires first.Valid() && k <= |fs|
    ensures d.Valid()
  {
    TicksOf(Played(first, fs[..k], ticks), ticks(k))
  }

  /** Classify frames move the flow table along their headers and leave the other stores alone. */
  lemma {:induction false} StoresOnTheWay(first: Dev, fs: seq<Frame>, ticks: nat -> nat, k: nat)
    requires first.Valid() && first.frameCount == 0 && first.flow == F.Table([]) && k <= |fs|
    requires forall f <- fs :: f[16] == OP_CLASSIFY
    ensures var d := Before(first, fs, ticks, k);
      && d.frameCount == Word16(k) && d.rules == first.rules && d.thr == first.thr && d.bloom == first.bloom
      && d.flow == F.Table(Headers(fs[..k]))
  {
    hide Respond, TicksOf, Parse, Word16, F.Absorb, F.Bucket;
    TicksKeep(Played(first, fs[..k], ticks), ticks(k));
    SameCount(Played(first, fs[..k], ticks), ticks(k));
    if k == 0 {
      SmallCount(first);
      assert Headers(fs[..0]) == [];
    } else {
      StoresOnTheWay(first, fs, ticks, k - 1);
      var d, f := Before(first, fs, ticks, k - 1), fs[k - 1];
      PrefixStep(fs, k - 1);
      PlayedAppend(first, fs[..k - 1], f, ticks);
      NextCount(d, f, Respond(d, f), k - 1);
      ClassifyStores(d, f);
      HeadersPrefix(fs, k - 1);
      var h := Headers(fs[..k - 1]);
      assert Init(h + [Parse(f, k - 1)]) == h;
      AbsorbNumber(d.flow[F.Bucket(Parse(f, k - 1).src)], f, k - 1);
    }
  }

  lemma ClassifyStores(d: Dev, f: Frame)
    requires d.Valid() && f[16] == OP_CLASSIFY
    ensures var n, h := Respond(d, f), Parse(f, d.frameCount);
      && n.rules == d.rules && n.thr == d.thr && n.bloom == d.bloom
      && n.flow == d.flow[F.Bucket(h.src) := F.Absorb(d.flow[F.Bucket(h.src)], h)]
  {
    hide Serve, Parse, VerdictOn, EncodeVerdict, F.Absorb, F.Bucket, Word16;
    FrameServed(d, f);
  }

  lemma ImageMember(bits: seq<Byte>, x: Ip)
    requires |bits| == B.M_BYTES
    ensures B.StoreMember(B.BuildWords(bits), x) == FilterMember(bits, x)
  {
    hide B.GetBit, B.StoreBit, B.H1, B.H2;
    B.ImageAgrees(bits, B.H1(x));
    B.ImageAgrees(bits, B.H2(x));
  }

  /** Without a matching rule the device combines the stages as the reference does. */
  lemma {:induction false} DeviceJudges(d: Dev, bits: seq<Byte>, f: Frame, h: seq<F.Header>, k: nat)
    requires d.Valid() && |bits| == B.M_BYTES && d.bloom == B.BuildWords(bits)
    requires d.frameCount == Word16(k) && d.flow == F.Table(h)
    requires !LookupRule(d.rules, SourceOf(f), EpochTap(d.thr)).matches
    ensures var p := Parse(f, k);
      VerdictOn(d, f) == Judge(FilterMember(bits, p.src) || FilterMember(bits, p.dst),
                               F.VerdictAfter(h + [p], Limits(d.thr)), (Word16(k) + 1) % 256)
  {
    hide F.Absorb, F.Verdict, F.Bucket, B.StoreMember, FilterMember, LookupIdx, FlagBits, SourceOf, DestOf, Word16,
      DecodeRule;
    var p := Parse(f, k);
    AbsorbNumber(d.flow[F.Bucket(p.src)], f, k);
    assert Init(h + [p]) == h;
    ImageMember(bits, p.src);
    ImageMember(bits, p.dst);
  }

  lemma SameOnTheWire(bloom: bool, pair: (bool, bool), k: nat)
    ensures EncodeVerdict(Judge(bloom, pair, (Word16(k) + 1) % 256)) == EncodeVerdict(Judge(bloom, pair, k + 1))
  {
    hide Word16, EncodeVerdict;
    ByteOfWord(k);
    OnlyTheByteCounts(Judge(bloom, pair, (Word16(k) + 1) % 256), Judge(bloom, pair, k + 1));
  }

  lemma OnlyTheByteCounts(v: Verdict, w: Verdict)
    requires v.severity < 256 && v == w.(seqNo := v.seqNo) && v.seqNo % 256 == w.seqNo % 256
    ensures EncodeVerdict(v) == EncodeVerdict(w)
  {
    hide Pad;
  }

  lemma ApartInPrefix(h: seq<F.Header>, n: nat)
    requires S.Apart(h) && n <= |h|
    ensures S.Apart(h[..n])
  {
    hide S.ScanBucket, S.SameEpoch;
    assert forall p <- h[..n] :: p in h;
    assert forall i :: 0 <= i < n ==> h[..n][i] == h[i];
  }

  /** The first 256 frames never return to an epoch number. */
  lemma FirstEpochsNeverReturn(fs: seq<Frame>)
    requires |fs| <= 256
    ensures S.NeverRevisits(Headers(fs))
  {
    hide Parse;
    var h := Headers(fs);
    forall k | 0 <= k < |h|
      ensures F.Epoch(h[k].frameCount) == k / 16
    {
      NumberOfParse(fs[k], k);
    }
  }

  lemma NumberOfParse(f: Frame, k: nat)
    ensures Parse(f, k).frameCount == k && Parse(f, k).src == SourceOf(f)
    ensures k < 256 ==> F.Epoch(k) == k / 16
  {
    hide SourceOf;
  }

  /** The device's verdict on the k-th of any classify frames is the reference's, when nothing collides
      in the older table, no rule matches, the Bloom memory is the filter's image and both packet
      counters or neither can reach the rate threshold. */
  lemma DeviceMatchesReference(first: Dev, fs: seq<Frame>, ticks: nat -> nat, bits: seq<Byte>, k: nat)
    requires first.Valid() && first.frameCount == 0 && first.flow == F.Table([])
    requires |bits| == B.M_BYTES && first.bloom == B.BuildWords(bits)
    requires k < |fs| && forall f <- fs :: f[16] == OP_CLASSIFY
    requires S.Apart(Headers(fs)) && (first.thr.rate <= S.COUNT_MAX || first.thr.rate > F.RATE_MAX)
    requires !LookupRule(first.rules, SourceOf(fs[k]), EpochTap(first.thr)).matches
    ensures EncodeVerdict(VerdictOn(Before(first, fs, ticks, k), fs[k]))
      == EncodeVerdict(Expected(bits, Limits(first.thr), fs, k))
  {
    hide Parse, VerdictOn, EncodeVerdict, Word16, F.VerdictAfter, S.ScanVerdictAfter, Judge, Before, FilterMember,
      LookupRule;
    hide S.Apart, F.Table, B.BuildWords, SourceOf;
    var d, h0, p := Before(first, fs, ticks, k), Headers(fs[..k]), Parse(fs[k], k);
    StoresOnTheWay(first, fs, ticks, k);
    HeadersPrefix(fs, k);
    ApartInPrefix(Headers(fs), k + 1);
    S.SameVerdictsWithoutSharing(h0 + [p], Limits(first.thr));
    DeviceJudges(d, bits, fs[k], h0, k);
    SameOnTheWire(FilterMember(bits, p.src) || FilterMember(bits, p.dst),
                  F.VerdictAfter(h0 + [p], Limits(first.thr)), k);
  }

  // ----- the rate thresholds for which they differ -----

  function PlainFrame(src: Ip): Frame {
    BuildClassify(src, 0, 0, 0, 0, 0, 0)
  }

  lemma PlainParses(src: Ip, k: nat)
    ensures PlainFrame(src)[16] == OP_CLASSIFY
    ensures Parse(PlainFrame(src), k) == F.Header(src, 0, 0, 0, 0, {}, 0, k)
  {
    hide BuildClassify, Parse, FlagBits;
    ClassifyParses(src, 0, 0, 0, 0, 0, 0, k);
    NoFlags();
  }

  lemma NoFlags()
    ensures FlagBits(0) == {}
  {
    forall k: nat | k < 8
      ensures !B.BitOf(0, k)
    {
      B.ZeroBits(k);
    }
  }

  /** A numbered stream of plain packets is that of frames. */
  lemma FramesFor(h: seq<F.Header>) returns (fs: seq<Frame>)
    requires F.Numbered(h) && forall p <- h :: p == F.Header(p.src, 0, 0, 0, 0, {}, 0, p.frameCount)
    ensures Headers(fs) == h && forall f <- fs :: f[16] == OP_CLASSIFY
  {
    hide PlainFrame, Parse;
    fs := seq(|h|, k requires 0 <= k < |h| => PlainFrame(h[k].src));
    forall k | 0 <= k < |h|
      ensures fs[k][16] == OP_CLASSIFY && Headers(fs)[k] == h[k]
    {
      PlainParses(h[k].src, k);
      assert h[k] in h;
    }
  }

  lemma {:induction false} DevicePair(d: Dev, f: Frame, h: seq<F.Header>, k: nat)
    requires d.Valid() && d.frameCount == Word16(k) && d.flow == F.Table(h)
    ensures var pair := F.VerdictAfter(h + [Parse(f, k)], Limits(d.thr));
      VerdictOn(d, f).portScan == pair.0 && VerdictOn(d, f).rateAnomaly == pair.1
  {
    hide F.Absorb, F.Verdict, F.Bucket, B.StoreMember, LookupRule, FlagBits, SourceOf, DestOf, Word16;
    var p := Parse(f, k);
    AbsorbNumber(d.flow[F.Bucket(p.src)], f, k);
    assert Init(h + [p]) == h;
  }

  /** For every other rate threshold some stream of classify frames without collisions, numbered as both
      number it, gets another verdict frame from the device than from the reference, rules or not. */
  lemma OtherRatesDiffer(first: Dev, ticks: nat -> nat, bits: seq<Byte>) returns (fs: seq<Frame>, k: nat)
    requires first.Valid() && first.frameCount == 0 && first.flow == F.Table([]) && |bits| == B.M_BYTES
    requires S.COUNT_MAX < first.thr.rate <= F.RATE_MAX
    ensures k < |fs| && (forall f <- fs :: f[16] == OP_CLASSIFY) && S.Apart(Headers(fs))
    ensures EncodeVerdict(VerdictOn(Before(first, fs, ticks, k), fs[k]))
      != EncodeVerdict(Expected(bits, Limits(first.thr), fs, k))
  {
    hide Parse, VerdictOn, EncodeVerdict, DecodeVerdict, Word16, F.VerdictAfter, S.ScanVerdictAfter, Before,
      FilterMember, S.Apart, F.Table, Headers, SourceOf;
    var h := S.RateCountersDiverge(first.thr.rate);
    S.LoneIsApart(h);
    fs := FramesFor(h);
    k := |fs| - 1;
    StoresOnTheWay(first, fs, ticks, k);
    HeadersPrefix(fs, k);
    assert fs[..k + 1] == fs;
    DevicePair(Before(first, fs, ticks, k), fs[k], Headers(fs[..k]), k);
    VerdictRoundTrip(VerdictOn(Before(first, fs, ticks, k), fs[k]));
    VerdictRoundTrip(Expected(bits, Limits(first.thr), fs, k));
  }

  // ----- the silicon round trip -----

  /** A stream on which device and reference must agree, from a device after reset. */
  ghost predicate Comparable(first: Dev, fs: seq<Frame>, bits: seq<Byte>)
    requires |bits| == B.M_BYTES
  {
    && first.Valid() && first.frameCount == 0 && first.flow == F.Table([]) && first.bloom == B.BuildWords(bits)
    && (forall f <- fs :: f[16] == OP_CLASSIFY && !LookupRule(first.rules, SourceOf(f), EpochTap(first.thr)).matches)
    && S.Apart(Headers(fs)) && (first.thr.rate <= S.COUNT_MAX || first.thr.rate > F.RATE_MAX)
  }

  /** The t-th entry of a log of the stream carries the reference's verdict. */
  lemma EntryMatches(first: Dev, ticks: nat -> nat, log: seq<Entry>, fs: seq<Frame>, bits: seq<Byte>, t: nat)
    requires |bits| == B.M_BYTES && Comparable(first, fs, bits)
    requires Consecutive(first, ticks, log) && t < |log| && t < |fs| && FramesOf(log)[..t + 1] == fs[..t + 1]
    ensures log[t].verdict.severity < 4
    ensures EncodeVerdict(log[t].verdict) == EncodeVerdict(Expected(bits, Limits(first.thr), fs, t))
  {
    hide Respond, TicksOf, VerdictOn, EncodeVerdict, Parse, Limits, LookupRule, S.Apart, F.Table, B.BuildWords,
      Headers;
    assert Follows(first, ticks, log, t);
    LogIsPlayed(first, ticks, log, t);
    assert FramesOf(log)[..t] == fs[..t] && FramesOf(log)[t] == fs[t] by {
      assert FramesOf(log)[..t] == FramesOf(log)[..t + 1][..t] && fs[..t] == fs[..t + 1][..t];
      assert FramesOf(log)[..t + 1][t] == fs[..t + 1][t];
    }
    DeviceMatchesReference(first, fs, ticks, bits, t);
  }

  /** The reply read after the t-th frame decodes like the golden verdict on it, and is numbered t + 1. */
  lemma ReplyMatches(first: Dev, ticks: nat -> nat, log: seq<Entry>, fs: seq<Frame>, bits: seq<Byte>, t: nat)
    requires |bits| == B.M_BYTES && Comparable(first, fs, bits)
    requires Consecutive(first, ticks, log) && t < |log| && t < |fs| && FramesOf(log)[..t + 1] == fs[..t + 1]
    ensures var v := DecodeVerdict(DevAfter(first, log, t + 1).tx);
      && v.valid && v == DecodeVerdict(EncodeVerdict(Expected(bits, Limits(first.thr), fs, t)))
      && v.seqNo == (t + 1) % 256
  {
    hide Respond, TicksOf, VerdictOn, EncodeVerdict, DecodeVerdict, Parse, Limits, Headers, Expected, LookupRule,
      S.Apart;
    EntryMatches(first, ticks, log, fs, bits, t);
    SequenceNumbers(first, ticks, log, t);
    LogIsValid(first, ticks, log, t);
    assert log[t].frame[16] == OP_CLASSIFY by {
      assert FramesOf(log)[..t + 1][t] == fs[..t + 1][t] && fs[t] in fs;
    }
    EntryDecodes(first, ticks, log, t);
  }

  lemma EntryDecodes(first: Dev, ticks: nat -> nat, log: seq<Entry>, t: nat)
    requires Consecutive(first, ticks, log) && t < |log| && log[t].frame[16] == OP_CLASSIFY
    ensures log[t].verdict.severity < 4 && DecodeVerdict(DevAfter(first, log, t + 1).tx) == log[t].verdict
    ensures DecodeVerdict(EncodeVerdict(log[t].verdict)) == log[t].verdict
  {
    hide Respond, TicksOf, VerdictOn, EncodeVerdict, DecodeVerdict;
    assert Follows(first, ticks, log, t);
    var e := log[t];
    OnClassify(e.before, e.frame, e.after);
    VerdictRoundTrip(e.verdict);
  }

  /** Clock the headers and a flush through the link and judge what came back. On a comparable stream
      the check passes against the golden verdicts, wherever windows end. */
  method SiliconRun(link: Link, headers: seq<Frame>, golden: seq<Frame>, ghost bits: seq<Byte>) returns (r: RunResult)
    requires link.Valid() && link.log == [] && |bits| == B.M_BYTES && Comparable(link.first, headers, bits)
    requires |golden| == |headers|
    requires forall k :: 0 <= k < |headers| ==>
      golden[k] == EncodeVerdict(Expected(bits, Limits(link.first.thr), headers, k))
    modifies link
    ensures r.Judged? && r.passed
  {
    hide Respond, TicksOf, VerdictOn, EncodeVerdict, DecodeVerdict, Expected, Comparable, Limits, Consecutive,
      Dev.Valid, Flush;
    var frames, rx: seq<Frame> := headers + [Flush()], [];
    for t := 0 to |frames|
      invariant link.Valid() && |link.log| == |rx| == t && FramesOf(link.log) == frames[..t]
      invariant forall k :: 0 <= k < t ==> rx[k] == DevAfter(link.first, link.log, k).tx
    {
      ghost var log := link.log;
      var back := link.SendFrame(frames[t]);
      rx := rx + [back];
      FramesGrow(log, link.log, frames[t]);
      PrefixStep(frames, t);
    }
    var n := |headers|;
    forall k | 0 <= k < n
      ensures ContentMatches(DecodeVerdict(rx[k + 1]), DecodeVerdict(golden[k]))
      ensures SeqNos(rx, n)[k] == (k + 1) % 256
    {
      assert FramesOf(link.log)[..k + 1] == headers[..k + 1];
      ReplyMatches(link.first, link.ticks, link.log, headers, bits, k);
    }
    NumbersIncrement(SeqNos(rx, n));
    r := EvaluateRun(rx, golden);
  }

  lemma FramesGrow(log: seq<Entry>, log': seq<Entry>, f: Frame)
    requires Continues(log, log', [f])
    ensures FramesOf(log') == FramesOf(log) + [f]
    ensures forall first, k | 0 <= k <= |log| :: DevAfter(first, log', k) == DevAfter(first, log, k)
  {
    assert log'[|log| + 0].frame == [f][0];
    assert forall t :: 0 <= t < |log| ==> log'[..|log|][t] == log'[t];
  }

  lemma NumbersIncrement(s: seq<nat>)
    requires forall k :: 0 <= k < |s| ==> s[k] == (k + 1) % 256
    ensures Increments(s)
  {
    forall i | 1 <= i < |s|
      ensures (s[i] as int - s[i - 1] as int) % 256 == 1
    {
      NextNumber(i);
    }
  }

  lemma NextNumber(i: nat)
    requires i >= 1
    ensures ((i + 1) % 256 - i % 256) % 256 == 1
  {
    ModShift((i + 1) - i, i / 256 - (i + 1) / 256);
  }
}
