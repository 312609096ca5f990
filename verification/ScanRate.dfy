/** The older 256-bucket table (scan_rate.py) and how the flow table relates to it. */
module ScanRate {
  import opened Words
  import opened Stream
  import opened FlowTable

  const NUM_BUCKETS := 256
  const COUNT_MAX := 0xFF

  datatype Entry = Entry(epoch: nat, ports: Bitmap, hosts: Bitmap, pkts: nat)

  function ScanBucket(ip: Ip): (b: nat)
    ensures b < NUM_BUCKETS
  {
    MulShift(ip, A1, 0x100_0000)
  }

  /** The bucket is the top byte of the low 32 bits of the product. */
  lemma ScanBucketSplits(ip: Ip) returns (high: nat, low: nat)
    ensures ip * 0x9E3779B1 == high * 0x1_0000_0000 + (ScanBucket(ip) * 0x100_0000 + low) && low < 0x100_0000
  {
    high, low := ProductSplits(ip, A1, 0x100_0000);
  }

  function BlankEntry(epoch: nat): Entry {
    Entry(epoch, {}, {}, 0)
  }

  /** One packet: a stale epoch resets the entry first; sources sharing the bucket are merged. */
  function Take(e: Entry, p: Header): Entry {
    Bumped(if e.epoch != Epoch(p.frameCount) then BlankEntry(Epoch(p.frameCount)) else e, p)
  }

  function Bumped(e: Entry, p: Header): Entry {
    Entry(e.epoch,
          if SynGate(p) then e.ports + {PortBit(p.dstPort)} else e.ports,
          if SynGate(p) then e.hosts + {HostBit(p.dst)} else e.hosts,
          Min(e.pkts + 1, COUNT_MAX))
  }

  function ScanVerdict(e: Entry, lim: Limits): (bool, bool) {
    (|e.ports| >= lim.port || |e.hosts| >= lim.host, e.pkts >= lim.rate)
  }

  class ScanRateTable {
    var t: seq<Entry>
    const thresholds: Thresholds

    ghost predicate Valid()
      reads this
    {
      |t| == NUM_BUCKETS
    }

    constructor (thresholds: Thresholds)
      ensures Valid() && t == ScanTable([]) && this.thresholds == thresholds
    {
      t := seq(NUM_BUCKETS, _ => BlankEntry(0));
      this.thresholds := thresholds;
    }

    method Update(p: Header) returns (portScanHit: bool, rateHit: bool)
      requires Valid()
      modifies this`t
      ensures Valid() && t == old(t)[ScanBucket(p.src) := Take(old(t)[ScanBucket(p.src)], p)]
      ensures (portScanHit, rateHit) == ScanVerdict(t[ScanBucket(p.src)], thresholds.Current())
    {
      hide ScanBucket, Epoch, Bumped;
      var b := ScanBucket(p.src);
      var ep := Epoch(p.frameCount);
      var e := t[b];
      if e.epoch != ep {
        e := BlankEntry(ep);
      }
      e := Bump(e, p);
      t := t[b := e];
      portScanHit := |e.ports| >= thresholds.Read(PORT_THRESH) || |e.hosts| >= thresholds.Read(HOST_THRESH);
      rateHit := e.pkts >= thresholds.Read(RATE_THRESH);
    }
  }

  /** The counter and bitmaps of an entry after one more packet. */
  method Bump(entry: Entry, p: Header) returns (e: Entry)
    ensures e == Bumped(entry, p)
  {
    hide PortBit, HostBit;
    e := entry.(pkts := Min(entry.pkts + 1, COUNT_MAX));
    if SynGate(p) {
      e := e.(ports := e.ports + {PortBit(p.dstPort)});
      e := e.(hosts := e.hosts + {HostBit(p.dst)});
    }
  }

  // ----- whole streams -----

  ghost function BlankScanTable(): (t: seq<Entry>)
    ensures |t| == NUM_BUCKETS && forall b :: 0 <= b < NUM_BUCKETS ==> t[b] == BlankEntry(0)
  {
    seq(NUM_BUCKETS, _ => BlankEntry(0))
  }

  ghost function ScanTable(h: seq<Header>): (t: seq<Entry>)
    ensures |t| == NUM_BUCKETS
  {
    if h == [] then BlankScanTable()
    else
      var b := ScanBucket(Last(h).src);
      ScanTable(Init(h))[b := Take(ScanTable(Init(h))[b], Last(h))]
  }

  ghost function ScanVerdictAfter(h: seq<Header>, lim: Limits): (bool, bool)
    requires h != []
  {
    ScanVerdict(ScanTable(h)[ScanBucket(Last(h).src)], lim)
  }

  predicate SameEpoch(p: Header, q: Header) {
    Epoch(p.frameCount) == Epoch(q.frameCount)
  }

  /** The latest packets of scan bucket b that share an epoch. */
  ghost function ScanRun(h: seq<Header>, b: nat): seq<Header> {
    if h == [] then []
    else
      var r, p := ScanRun(Init(h), b), Last(h);
      if ScanBucket(p.src) != b then r
      else if r != [] && SameEpoch(Last(r), p) then r + [p]
      else [p]
  }

  ghost function ScanSummary(r: seq<Header>): Entry {
    if r == [] then BlankEntry(0)
    else Entry(Epoch(Last(r).frameCount), Ports(r), Hosts(r), Min(|r|, COUNT_MAX))
  }

  lemma TakeExtends(r: seq<Header>, p: Header)
    ensures Take(ScanSummary(r), p) == ScanSummary(if r != [] && SameEpoch(Last(r), p) then r + [p] else [p])
  {
    SetsGrow(r, p);
    SetsGrow([], p);
    assert [] + [p] == [p];
    assert Ports([]) == {} && Hosts([]) == {};
    hide Epoch, PortBit, HostBit, SynGate, Ports, Hosts;
  }

  lemma {:induction false} EntriesHoldRuns(h: seq<Header>, b: nat)
    requires b < NUM_BUCKETS
    ensures ScanTable(h)[b] == ScanSummary(ScanRun(h, b))
  {
    if h == [] {
    } else {
      hide ScanBucket, Take, ScanSummary, SameEpoch;
      EntriesHoldRuns(Init(h), b);
      TakeExtends(ScanRun(Init(h), b), Last(h));
    }
  }

  // ----- the flow table against the older one -----

  lemma BucketRefines(x: Ip, y: Ip)
    ensures ScanBucket(x) == Bucket(x) / 16
    ensures Bucket(x) == Bucket(y) ==> ScanBucket(x) == ScanBucket(y)
  {
  }

  /** No two sources of the stream fall in one bucket of the older table. */
  ghost predicate NoneShares(h: seq<Header>) {
    forall p <- h, q <- h :: ScanBucket(p.src) == ScanBucket(q.src) ==> p.src == q.src
  }

  /** No two sources fall in one bucket of the older table during one epoch. */
  ghost predicate NoneSharesAnEpoch(h: seq<Header>) {
    forall p <- h, q <- h :: SameEpoch(p, q) && ScanBucket(p.src) == ScanBucket(q.src) ==> p.src == q.src
  }

  /** Once an epoch has been left, its number never returns. */
  ghost predicate NeverRevisits(h: seq<Header>) {
    forall i, j, k :: 0 <= i < j < k < |h| && SameEpoch(h[i], h[k]) ==> SameEpoch(h[j], h[k])
  }

  /** The streams on which nothing collides: sources keep apart throughout, or within each epoch
      while no epoch number returns. */
  ghost predicate Apart(h: seq<Header>) {
    NoneShares(h) || (NoneSharesAnEpoch(h) && NeverRevisits(h))
  }

  /** A source alone in its scan bucket has the same current run in both tables. */
  lemma {:induction false} LoneSourceSameRun(h: seq<Header>, x: Ip)
    requires forall p <- h :: ScanBucket(p.src) == ScanBucket(x) ==> p.src == x
    ensures Run(h, Bucket(x)) == ScanRun(h, ScanBucket(x))
    ensures forall p <- Run(h, Bucket(x)) :: p.src == x
  {
    if h == [] {
    } else {
      assert forall p <- Init(h) :: p in h;
      assert Last(h) in h;
      LoneSourceSameRun(Init(h), x);
      BucketRefines(Last(h).src, x);
      hide Bucket, ScanBucket, Fp, Epoch;
    }
  }

  /** The source has sent a packet in the stream's last epoch. */
  ghost predicate Current(h: seq<Header>, x: Ip)
    requires h != []
  {
    exists p <- h :: p.src == x && SameEpoch(p, Last(h))
  }

  lemma PrefixKeepsApart(h: seq<Header>)
    requires h != [] && NoneSharesAnEpoch(h) && NeverRevisits(h)
    ensures NoneSharesAnEpoch(Init(h)) && NeverRevisits(Init(h))
    ensures Last(h) in h && forall p <- Init(h) :: p in h
  {
    hide SameEpoch, ScanBucket;
    var g := Init(h);
    assert forall i :: 0 <= i < |g| ==> g[i] == h[i];
  }

  /** An earlier packet of the last packet's epoch puts the whole stretch between them in that epoch. */
  lemma EpochLasts(h: seq<Header>, p: Header)
    requires h != [] && NeverRevisits(h) && p in Init(h) && SameEpoch(p, Last(h))
    ensures SameEpoch(Last(Init(h)), Last(h))
  {
    hide SameEpoch;
    var i :| 0 <= i < |Init(h)| && Init(h)[i] == p;
    assert h[i] == p && Last(Init(h)) == h[|h| - 2];
  }

  /** A source alone in its scan bucket during the current epoch has the same current run in both tables. */
  lemma {:induction false} EpochAloneSameRun(h: seq<Header>, x: Ip)
    requires h != [] && NoneSharesAnEpoch(h) && NeverRevisits(h) && Current(h, x)
    ensures var r := Run(h, Bucket(x));
      r == ScanRun(h, ScanBucket(x)) && r != [] && SameEpoch(Last(r), Last(h)) && forall p <- r :: p.src == x
  {
    var g, q := Init(h), Last(h);
    PrefixKeepsApart(h);
    BucketRefines(q.src, x);
    if g != [] && Current(g, x) && SameEpoch(Last(g), q) {
      EpochAloneSameRun(g, x);
      ExtendsAlike(h, x);
    } else {
      StartsAlike(h, x);
    }
  }

  lemma {:induction false} ExtendsAlike(h: seq<Header>, x: Ip)
    requires h != [] && NoneSharesAnEpoch(h) && Init(h) != [] && SameEpoch(Last(Init(h)), Last(h))
    requires var r := Run(Init(h), Bucket(x));
      r == ScanRun(Init(h), ScanBucket(x))
      && r != [] && SameEpoch(Last(r), Last(Init(h))) && forall p <- r :: p.src == x
    ensures var r := Run(h, Bucket(x));
      r == ScanRun(h, ScanBucket(x)) && r != [] && SameEpoch(Last(r), Last(h)) && forall p <- r :: p.src == x
  {
    var q, r := Last(h), Run(Init(h), Bucket(x));
    BucketRefines(q.src, x);
    RunMembers(Init(h), Bucket(x));
    assert Last(r) in r && Last(r) in h && q in h;
    hide Bucket, ScanBucket, Fp, Epoch;
  }

  /** The first packet of x in an epoch starts a new run in both tables. */
  lemma {:induction false} StartsAlike(h: seq<Header>, x: Ip)
    requires h != [] && NoneSharesAnEpoch(h) && NeverRevisits(h) && Current(h, x)
    requires Init(h) == [] || !Current(Init(h), x) || !SameEpoch(Last(Init(h)), Last(h))
    ensures Last(h).src == x
    ensures Run(h, Bucket(x)) == [Last(h)] == ScanRun(h, ScanBucket(x))
  {
    var g, q := Init(h), Last(h);
    PrefixKeepsApart(h);
    forall p | p in g && SameEpoch(p, q)
      ensures p.src != x
    {
      EpochLasts(h, p);
    }
    assert h == g + [q];
    assert q.src == x;
    var r, s := Run(g, Bucket(x)), ScanRun(g, ScanBucket(x));
    RunMembers(g, Bucket(x));
    ScanRunMembers(g, ScanBucket(x));
    BucketRefinesAll(x);
    if r != [] { assert Last(r) in r; }
    if s != [] { assert Last(s) in s; }
    hide Bucket, ScanBucket, Fp, Epoch;
  }

  lemma BucketRefinesAll(x: Ip)
    ensures forall y: Ip :: Bucket(y) == Bucket(x) ==> ScanBucket(y) == ScanBucket(x)
  {
    forall y: Ip | Bucket(y) == Bucket(x)
      ensures ScanBucket(y) == ScanBucket(x)
    {
      BucketRefines(y, x);
    }
  }

  lemma {:induction false} ScanRunMembers(h: seq<Header>, b: nat)
    ensures forall p <- ScanRun(h, b) :: p in h && ScanBucket(p.src) == b
  {
    hide ScanBucket, SameEpoch;
    if h == [] {
    } else {
      ScanRunMembers(Init(h), b);
      assert forall p <- Init(h) :: p in h;
    }
  }

  /** The last packet's source has one run in both tables, all its own. */
  lemma {:induction false} ApartSameRun(h: seq<Header>)
    requires h != [] && Apart(h)
    ensures var x := Last(h).src;
      Run(h, Bucket(x)) == ScanRun(h, ScanBucket(x)) && forall p <- Run(h, Bucket(x)) :: p.src == x
  {
    hide Bucket, ScanBucket, Fp, Run, ScanRun;
    assert Last(h) in h;
    if NoneShares(h) {
      LoneSourceSameRun(h, Last(h).src);
    } else {
      EpochAloneSameRun(h, Last(h).src);
    }
  }

  /** Where nothing collides, both tables report the same pair on every packet, for common thresholds
      with a rate threshold that the 8-bit counter can reach or that neither counter can. */
  lemma SameVerdictsWithoutSharing(h: seq<Header>, lim: Limits)
    requires h != [] && Apart(h)
    requires lim.rate <= COUNT_MAX || lim.rate > RATE_MAX
    ensures VerdictAfter(h, lim) == ScanVerdictAfter(h, lim)
  {
    hide Bucket, ScanBucket, Fp, Epoch, Run, ScanRun, Table, ScanTable, Ports, Hosts, AllFlags, Apart;
    var x := Last(h).src;
    ApartSameRun(h);
    CellsHoldRuns(h, Bucket(x));
    EntriesHoldRuns(h, ScanBucket(x));
    RunEndsWithLast(h);
  }

  /** The older table's rate alarm is exact for every threshold that its counter can reach. */
  lemma {:induction false} ScanRateIsRunLength(h: seq<Header>, lim: Limits)
    requires h != []
    ensures ScanVerdictAfter(h, lim).1 <==> lim.rate <= Min(|ScanRun(h, ScanBucket(Last(h).src))|, COUNT_MAX)
  {
    hide ScanBucket, Epoch, Ports, Hosts;
    EntriesHoldRuns(h, ScanBucket(Last(h).src));
    assert ScanRun(h, ScanBucket(Last(h).src)) != [];
  }

  /** Sharing an epoch does matter: two sources that the flow table can tell apart and the older one
      cannot get different verdicts on two packets. */
  lemma SharersDiverge(x: Ip, y: Ip) returns (h: seq<Header>)
    requires Separable(x, y) && ScanBucket(x) == ScanBucket(y)
    ensures h != [] && Numbered(h) && NeverRevisits(h) && forall p <- h :: p.src == x || p.src == y
    ensures VerdictAfter(h, Limits(17, 17, 2)) != ScanVerdictAfter(h, Limits(17, 17, 2))
  {
    hide Bucket, ScanBucket, Fp, VerdictAfter, ScanVerdictAfter, Run, ScanRun;
    var p, q := Header(y, 0, 0, 0, 0, {}, 0, 0), Header(x, 0, 0, 0, 0, {}, 0, 1);
    h := [p, q];
    SharerRuns(p, q);
    AlarmsAreSound(h, Limits(17, 17, 2));
    ScanRateIsRunLength(h, Limits(17, 17, 2));
  }

  lemma SharerRuns(p: Header, q: Header)
    requires Separable(q.src, p.src) && ScanBucket(p.src) == ScanBucket(q.src) && SameEpoch(p, q)
    ensures Run([p, q], Bucket(q.src)) == [q] && ScanRun([p, q], ScanBucket(q.src)) == [p, q]
  {
    hide Bucket, ScanBucket, Fp, Epoch;
    var b, k := Bucket(q.src), ScanBucket(q.src);
    assert Init([p, q]) == [p] && Init([p]) == [];
    assert Run([p], b) == if Bucket(p.src) == b then [p] else [];
    assert ScanRun([p], k) == [p];
  }

  /** So does an epoch number that returns: the older table has been reset in between, the flow table
      has not. */
  lemma RevisitsDiverge(x: Ip, y: Ip) returns (h: seq<Header>)
    requires Bucket(x) != Bucket(y) && ScanBucket(x) == ScanBucket(y)
    ensures h != [] && Numbered(h) && NoneSharesAnEpoch(h) && forall p <- h :: p.src == x || p.src == y
    ensures VerdictAfter(h, Limits(17, 17, 2)) != ScanVerdictAfter(h, Limits(17, 17, 2))
  {
    hide Bucket, ScanBucket, Fp, Epoch, VerdictAfter, ScanVerdictAfter, Run, ScanRun, Until;
    var p := Header(x, 0, 0, 0, 0, {}, 0, 0);
    h := Periodic(p, y, Until(17));
    ReturnsAreOneRun(p, y, Until(17));
    UntilIsExact(p, y, 17);
    PeriodicKeepsApart(p, y, Until(17));
    ResetByFiller(p, y);
    AlarmsAreSound(h, Limits(17, 17, 2));
    ScanRateIsRunLength(h, Limits(17, 17, 2));
  }

  lemma {:induction false} PeriodicKeepsApart(p: Header, z: Ip, n: nat)
    ensures forall q <- Periodic(p, z, n) :: q.src == if Epoch(q.frameCount) == 0 then p.src else z
  {
    hide Epoch;
    if n == 0 {
    } else {
      PeriodicKeepsApart(p, z, n - 1);
    }
  }

  /** The first packet of the second round finds the filler's entry. */
  lemma {:induction false} ResetByFiller(p: Header, z: Ip)
    requires ScanBucket(z) == ScanBucket(p.src)
    ensures |ScanRun(Periodic(p, z, Until(17)), ScanBucket(p.src))| == 1
  {
    hide ScanBucket;
    var h, b := Periodic(p, z, 257), ScanBucket(p.src);
    assert Until(17) == 257 && Init(h) == Periodic(p, z, 256) && Init(Init(h)) == Periodic(p, z, 255);
    assert Last(h) == PeriodicAt(p, z, 256) && Last(Init(h)) == PeriodicAt(p, z, 255);
    assert Epoch(255) == 15 && Epoch(256) == 0;
    var r := ScanRun(Init(h), b);
    assert r != [] && Last(r) == Last(Init(h));
  }

  lemma {:induction false} ReturnsAreOneScanRun(p: Header, z: Ip, n: nat)
    requires ScanBucket(z) != ScanBucket(p.src)
    ensures ScanRun(Periodic(p, z, n), ScanBucket(p.src)) == Returns(p, n)
  {
    hide ScanBucket, Epoch;
    if n == 0 {
    } else {
      ReturnsAreOneScanRun(p, z, n - 1);
      assert Init(Periodic(p, z, n)) == Periodic(p, z, n - 1);
      var r := Returns(p, n - 1);
      assert r != [] ==> Last(r) in r;
    }
  }

  lemma RateCountersDiverge(rate: nat) returns (h: seq<Header>)
    requires COUNT_MAX < rate <= RATE_MAX
    ensures h != [] && Numbered(h) && NoneShares(h)
    ensures forall p <- h :: p == Header(p.src, 0, 0, 0, 0, {}, 0, p.frameCount)
    ensures forall lim: Limits :: lim.rate == rate ==> VerdictAfter(h, lim).1 && !ScanVerdictAfter(h, lim).1
  {
    hide Bucket, ScanBucket, Fp, Epoch, VerdictAfter, ScanVerdictAfter, Run, ScanRun, Until;
    var p, z := Header(0, 0, 0, 0, 0, {}, 0, 0), 1;
    h := Periodic(p, z, Until(rate));
    DistinctBuckets();
    BucketRefines(z, p.src);
    PeriodicIsPlain(p, z, Until(rate));
    ReturnsAreOneRun(p, z, Until(rate));
    ReturnsAreOneScanRun(p, z, Until(rate));
    UntilIsExact(p, z, rate);
    forall lim: Limits | lim.rate == rate
      ensures VerdictAfter(h, lim).1 && !ScanVerdictAfter(h, lim).1
    {
      AlarmsAreSound(h, lim);
      ScanRateIsRunLength(h, lim);
    }
  }

  lemma DistinctBuckets()
    ensures ScanBucket(0) != ScanBucket(1)
  {
  }

  lemma {:induction false} PeriodicIsPlain(p: Header, z: Ip, n: nat)
    ensures forall q <- Periodic(p, z, n) :: q == p.(src := q.src, frameCount := q.frameCount)
  {
    hide Epoch;
    if n == 0 {
    } else {
      PeriodicIsPlain(p, z, n - 1);
    }
  }

  ghost predicate AgreeOn(h: seq<Header>, rate: nat)
    requires h != []
  {
    forall lim: Limits :: lim.rate == rate ==> VerdictAfter(h, lim) == ScanVerdictAfter(h, lim)
  }

  /** Exactly for these rate thresholds do the two tables agree on every stream without collisions, and
      already on every consecutively numbered one. */
  lemma AgreementIff(rate: nat)
    ensures (forall h: seq<Header> :: h != [] && Apart(h) ==> AgreeOn(h, rate))
       <==> rate <= 255 || rate > 16383
    ensures (forall h: seq<Header> :: h != [] && Apart(h) && Numbered(h) ==> AgreeOn(h, rate))
       <==> rate <= 255 || rate > 16383
  {
    hide Apart, VerdictAfter, ScanVerdictAfter, Numbered;
    if rate <= COUNT_MAX || rate > RATE_MAX {
      forall h: seq<Header> | h != [] && Apart(h)
        ensures AgreeOn(h, rate)
      {
        forall lim: Limits | lim.rate == rate
          ensures VerdictAfter(h, lim) == ScanVerdictAfter(h, lim)
        {
          SameVerdictsWithoutSharing(h, lim);
        }
      }
    } else {
      var h := RateCountersDiverge(rate);
      LoneIsApart(h);
      assert Limits(0, 0, rate).rate == rate;
    }
  }

  lemma LoneIsApart(h: seq<Header>)
    requires NoneShares(h)
    ensures Apart(h)
  {
  }

  // ----- the older table over-reports -----

  /** While the epoch lasts, a flow-table run is part of the scan bucket's run. */
  ghost predicate Within(r: seq<Header>, s: seq<Header>) {
    && r != [] && s != [] && SameEpoch(Last(r), Last(s))
    && |r| <= |s| && forall p <- r :: p in s
  }

  lemma {:induction false} RunsNest(h: seq<Header>, b: nat)
    requires NeverRevisits(h) && h != [] && Run(h, b) != [] && SameEpoch(Last(Run(h, b)), Last(h))
    ensures Within(Run(h, b), ScanRun(h, b / 16))
  {
    hide Bucket, ScanBucket, Fp, Epoch;
    var h0, q := Init(h), Last(h);
    var r0 := Run(h0, b);
    BucketRefines(q.src, q.src);
    if r0 == [] || !SameEpoch(Last(r0), q) {
    } else {
      RunMembers(h0, b);
      assert Last(r0) in r0;
      var i :| 0 <= i < |h0| && h0[i] == Last(r0);
      assert h[i] == h0[i] && Last(h0) == h[|h| - 2];
      RunsNest(h0, b);
    }
  }

  /** On streams that never revisit an epoch number, whatever scan the flow table reports the older
      table reports too, however many sources collide; likewise a rate with a reachable threshold. */
  lemma OlderTableReportsMore(h: seq<Header>, lim: Limits)
    requires h != [] && NeverRevisits(h)
    ensures VerdictAfter(h, lim).0 ==> ScanVerdictAfter(h, lim).0
    ensures lim.rate <= COUNT_MAX ==> (VerdictAfter(h, lim).1 ==> ScanVerdictAfter(h, lim).1)
  {
    var x := Last(h).src;
    var b, k := Bucket(x), ScanBucket(x);
    BucketRefines(x, x);
    RunEndsWithLast(h);
    RunsNest(h, b);
    CellsHoldRuns(h, b);
    EntriesHoldRuns(h, k);
    var r, s := Run(h, b), ScanRun(h, k);
    assert Ports(r) <= Ports(s) && Hosts(r) <= Hosts(s);
    SubsetSize(Ports(r), Ports(s));
    SubsetSize(Hosts(r), Hosts(s));
    hide Bucket, ScanBucket, Fp, Epoch, Run, ScanRun, Table, ScanTable, Ports, Hosts, AllFlags;
  }
}
