/** The per-source flow table (flow_table_model.py) and the runtime thresholds (thresholds_model.py). */
module FlowTable {
  import opened Words
  import opened Stream

  const DEPTH := 4096
  const RATE_MAX := 0x3FFF
  const BYTE_MAX := 0xFF_FFFF
  const SYN_MAX := 0xFFF

  /** One classify frame's header. tcpFlags holds the positions of the set flag bits. */
  datatype Header = Header(src: Ip, dst: Ip, srcPort: nat, dstPort: nat, proto: nat, tcpFlags: Bitmap, size: nat,
                           frameCount: nat)

  datatype Cell = Cell(fp: nat, epoch: nat, pkts: nat, bytes: nat, syns: nat,
                       ports: Bitmap, hosts: Bitmap, flags: Bitmap)

  datatype Limits = Limits(port: nat, host: nat, rate: nat)

  function Bucket(ip: Ip): (b: nat)
    ensures b < DEPTH
  {
    MulShift(ip, A1, 0x10_0000)
  }

  function Fp(ip: Ip): (f: nat)
    ensures f < 0x1_0000
  {
    Word16(MulShift(ip, A2, 0x1000))
  }

  function PortBit(port: nat): (k: nat)
    ensures k < 16
  {
    MulShift(port, A2, 0x1000_0000)
  }

  function HostBit(ip: Ip): (k: nat)
    ensures k < 16
  {
    MulShift(ip, A1, 0x1000_0000)
  }

  function Epoch(frameCount: nat): (e: nat)
    ensures e < 16
  {
    Nibble(frameCount / 16)
  }

  /** The bucket is the top 12 bits of the low 32 of the product with one constant, the fingerprint the 16
      from bit 12 up of the product with the other. */
  lemma SourceSplits(ip: Ip) returns (high1: nat, low1: nat, high2: nat, top: nat, low2: nat)
    ensures ip * 0x9E3779B1 == high1 * 0x1_0000_0000 + (Bucket(ip) * 0x10_0000 + low1) && low1 < 0x10_0000
    ensures ip * 0x85EBCA77 == high2 * 0x1_0000_0000 + ((top * 0x1_0000 + Fp(ip)) * 0x1000 + low2)
    ensures low2 < 0x1000 && Fp(ip) < 0x1_0000 && top < 16
  {
    high1, low1 := ProductSplits(ip, A1, 0x10_0000);
    high2, low2 := ProductSplits(ip, A2, 0x1000);
    top := MulShift(ip, A2, 0x1000) / 0x1_0000;
  }

  /** Port and host bits are the top four bits of the low 32 of the products. */
  lemma TargetSplits(port: nat, host: Ip) returns (high1: nat, low1: nat, high2: nat, low2: nat)
    ensures port * 0x85EBCA77 == high1 * 0x1_0000_0000 + (PortBit(port) * 0x1000_0000 + low1) && low1 < 0x1000_0000
    ensures host * 0x9E3779B1 == high2 * 0x1_0000_0000 + (HostBit(host) * 0x1000_0000 + low2) && low2 < 0x1000_0000
  {
    high1, low1 := ProductSplits(port, A2, 0x1000_0000);
    high2, low2 := ProductSplits(host, A1, 0x1000_0000);
  }

  /** Windows are of sixteen frames, numbered modulo 16. */
  lemma EpochOfFrame(window: nat, r: nat)
    requires r < 16
    ensures Epoch(16 * window + r) == window % 16
  {
    assert (16 * window + r) / 16 == window;
  }

  /** A TCP packet with SYN (bit 1) and without ACK (bit 4). */
  predicate SynGate(p: Header) {
    p.proto == 6 && 1 in p.tcpFlags && 4 !in p.tcpFlags
  }

  function Blank(epoch: nat, fp: nat): Cell {
    Cell(fp, epoch, 0, 0, 0, {}, {}, {})
  }

  /** The cell a packet updates: another fingerprint or epoch evicts what was there. */
  function Evict(c: Cell, p: Header): Cell {
    if c.fp != Fp(p.src) || c.epoch != Epoch(p.frameCount) then Blank(Epoch(p.frameCount), Fp(p.src)) else c
  }

  function Count(c: Cell, p: Header): Cell {
    Cell(c.fp, c.epoch, Min(c.pkts + 1, RATE_MAX), Min(c.bytes + p.size, BYTE_MAX),
         if SynGate(p) then Min(c.syns + 1, SYN_MAX) else c.syns,
         if SynGate(p) then c.ports + {PortBit(p.dstPort)} else c.ports,
         if SynGate(p) then c.hosts + {HostBit(p.dst)} else c.hosts,
         c.flags + p.tcpFlags)
  }

  function Absorb(c: Cell, p: Header): Cell {
    Count(Evict(c, p), p)
  }

  /** (port_scan_hit, rate_hit) */
  function Verdict(c: Cell, lim: Limits): (bool, bool) {
    (|c.ports| >= lim.port || |c.hosts| >= lim.host, c.pkts >= lim.rate)
  }

  const PORT_THRESH := 0
  const HOST_THRESH := 1
  const RATE_THRESH := 2
  const RULE_EPOCH := 3

  datatype Setting = Setting(tid: nat, value: int)

  /** What a register reads after these writes: the low 16 bits of the last one to it; before that port and
      host thresholds 5, rate threshold 8 and rule epoch 0. Other ids read 0. */
  function Latest(writes: seq<Setting>, tid: nat): nat {
    if tid > 3 then 0
    else if writes == [] then (if tid == 2 then 8 else if tid == 3 then 0 else 5)
    else if Last(writes).tid == tid then Last(writes).value % 0x1_0000
    else Latest(Init(writes), tid)
  }

  lemma {:induction false} LatestStep(writes: seq<Setting>, w: Setting, tid: nat)
    ensures Latest(writes + [w], tid)
      == if tid <= 3 && w.tid == tid then w.value % 0x1_0000 else Latest(writes, tid)
  {
    assert Init(writes + [w]) == writes;
  }

  class Thresholds {
    var v: map<nat, nat>
    ghost var writes: seq<Setting>    // the writes so far

    ghost predicate Valid()
      reads this
    {
      v.Keys == {PORT_THRESH, HOST_THRESH, RATE_THRESH, RULE_EPOCH} && forall tid :: Read(tid) == Latest(writes, tid)
    }

    constructor ()
      ensures Valid() && Current() == Limits(5, 5, 8) && Read(RULE_EPOCH) == 0 && writes == []
    {
      v := map[PORT_THRESH := 5, HOST_THRESH := 5, RATE_THRESH := 8, RULE_EPOCH := 0];
      writes := [];
    }

    function Read(tid: nat): (r: nat)
      reads this
      ensures tid !in v ==> r == 0
    {
      if tid in v then v[tid] else 0
    }

    function Current(): Limits
      reads this
    {
      Limits(Read(PORT_THRESH), Read(HOST_THRESH), Read(RATE_THRESH))
    }

    /** An unknown id changes nothing; a known one reads back as the low 16 bits. */
    method Write(tid: nat, value: int)
      requires Valid()
      modifies this
      ensures Valid()
      ensures forall i :: Read(i) == if i == tid && tid <= RULE_EPOCH then Word16(value) else old(Read(i))
      ensures writes == old(writes) + [Setting(tid, value)]
      ensures Current() == Limits(Latest(writes, 0), Latest(writes, 1), Latest(writes, 2))
    {
      forall i
        ensures Latest(writes + [Setting(tid, value)], i)
          == if i <= 3 && tid == i then value % 0x1_0000 else Latest(writes, i)
      {
        LatestStep(writes, Setting(tid, value), i);
      }
      writes := writes + [Setting(tid, value)];
      if tid in {PORT_THRESH, HOST_THRESH, RATE_THRESH, RULE_EPOCH} {
        v := v[tid := Word16(value)];
      }
    }
  }

  class FlowTable {
    var t: seq<Cell>
    const thresholds: Thresholds

    ghost predicate Valid()
      reads this
    {
      |t| == DEPTH
    }

    constructor (thresholds: Thresholds)
      ensures Valid() && t == Table([]) && this.thresholds == thresholds
    {
      t := seq(DEPTH, _ => Blank(0, 0));
      this.thresholds := thresholds;
    }

    method Update(p: Header) returns (portScanHit: bool, rateHit: bool)
      requires Valid()
      modifies this`t
      ensures Valid() && t == old(t)[Bucket(p.src) := Absorb(old(t)[Bucket(p.src)], p)]
      ensures (portScanHit, rateHit) == Verdict(t[Bucket(p.src)], thresholds.Current())
    {
      hide Bucket, Fp, Epoch, Count;
      var b := Bucket(p.src);
      var f := Fp(p.src);
      var ep := Epoch(p.frameCount);
      var cur := t[b];
      if cur.fp != f || cur.epoch != ep {
        cur := Blank(ep, f);
      }
      cur := Tally(cur, p);
      t := t[b := cur];
      portScanHit := |cur.ports| >= thresholds.Read(PORT_THRESH) || |cur.hosts| >= thresholds.Read(HOST_THRESH);
      rateHit := cur.pkts >= thresholds.Read(RATE_THRESH);
    }
  }

  /** The counters, bitmaps and flags of a cell after one more packet. */
  method Tally(c: Cell, p: Header) returns (cur: Cell)
    ensures cur == Count(c, p)
  {
    hide PortBit, HostBit;
    cur := c;
    cur := cur.(pkts := Min(cur.pkts + 1, RATE_MAX));
    cur := cur.(bytes := Min(cur.bytes + p.size, BYTE_MAX));
    if SynGate(p) {
      cur := cur.(syns := Min(cur.syns + 1, SYN_MAX));
      cur := cur.(ports := cur.ports + {PortBit(p.dstPort)});
      cur := cur.(hosts := cur.hosts + {HostBit(p.dst)});
    }
    cur := cur.(flags := cur.flags + p.tcpFlags);
  }

  // ----- whole streams -----

  /** The table after a stream of packets. */
  ghost function Table(h: seq<Header>): (t: seq<Cell>)
    ensures |t| == DEPTH
  {
    if h == [] then BlankTable()
    else
      var b := Bucket(Last(h).src);
      Table(Init(h))[b := Absorb(Table(Init(h))[b], Last(h))]
  }

  ghost function BlankTable(): (t: seq<Cell>)
    ensures |t| == DEPTH && forall b :: 0 <= b < DEPTH ==> t[b] == Blank(0, 0)
  {
    seq(DEPTH, _ => Blank(0, 0))
  }

  /** What a cell is matched on. */
  function Key(p: Header): (nat, nat) {
    (Fp(p.src), Epoch(p.frameCount))
  }

  /** The latest packets of bucket b that share one fingerprint and epoch. */
  ghost function Run(h: seq<Header>, b: nat): seq<Header> {
    if h == [] then []
    else
      var r, p := Run(Init(h), b), Last(h);
      if Bucket(p.src) != b then r
      else if r != [] && Key(Last(r)) == Key(p) then r + [p]
      else [p]
  }

  /** All packets of bucket b. */
  ghost function OfBucket(h: seq<Header>, b: nat): seq<Header> {
    if h == [] then []
    else if Bucket(Last(h).src) == b then OfBucket(Init(h), b) + [Last(h)]
    else OfBucket(Init(h), b)
  }

  /** Run(h, b) is the longest suffix of b's packets with a single key: its packets share a key,
      and what precedes it ends with another. */
  lemma {:induction false} RunIsLongestSuffix(h: seq<Header>, b: nat) returns (before: seq<Header>)
    ensures OfBucket(h, b) == before + Run(h, b)
    ensures forall p <- Run(h, b) :: Key(p) == Key(Last(Run(h, b)))
    ensures before != [] ==> Run(h, b) != [] && Key(Last(before)) != Key(Run(h, b)[0])
  {
    hide Key, Bucket;
    if h == [] {
      before := [];
    } else {
      before := RunIsLongestSuffix(Init(h), b);
      var r, p := Run(Init(h), b), Last(h);
      if Bucket(p.src) == b {
        if r != [] && Key(Last(r)) == Key(p) {
          assert before + (r + [p]) == (before + r) + [p];
        } else if r != [] {
          before := before + r;
        }
      }
    }
  }

  // ----- consecutively numbered streams -----

  /** The packets are numbered from 0, as the device and the reference number them. */
  predicate Numbered(h: seq<Header>) {
    forall k :: 0 <= k < |h| ==> h[k].frameCount == k
  }

  /** Packet k of a stream in which p comes back whenever the epoch number is 0 and z fills the rest. */
  function PeriodicAt(p: Header, z: Ip, k: nat): Header {
    if Epoch(k) == 0 then p.(frameCount := k) else p.(src := z, frameCount := k)
  }

  function Periodic(p: Header, z: Ip, n: nat): (h: seq<Header>)
    ensures |h| == n && Numbered(h) && forall q <- h :: q.src == p.src || q.src == z
  {
    if n == 0 then [] else Periodic(p, z, n - 1) + [PeriodicAt(p, z, n - 1)]
  }

  /** The packets of p's source in it. */
  function Returns(p: Header, n: nat): (r: seq<Header>)
    ensures forall q <- r :: q.src == p.src && q.size == p.size && Epoch(q.frameCount) == 0
  {
    if n == 0 then []
    else if Epoch(n - 1) == 0 then Returns(p, n - 1) + [p.(frameCount := n - 1)]
    else Returns(p, n - 1)
  }

  /** They form one run, however often the epoch number has wrapped: the filler lies in another bucket. */
  lemma {:induction false} ReturnsAreOneRun(p: Header, z: Ip, n: nat)
    requires Bucket(z) != Bucket(p.src)
    ensures Run(Periodic(p, z, n), Bucket(p.src)) == Returns(p, n)
  {
    hide Bucket, Fp, Epoch;
    if n == 0 {
    } else {
      ReturnsAreOneRun(p, z, n - 1);
      assert Init(Periodic(p, z, n)) == Periodic(p, z, n - 1);
      var r := Returns(p, n - 1);
      assert r != [] ==> Last(r) in r;
    }
  }

  /** Sixteen of every 256 packets, the first ones. */
  lemma {:induction false} ReturnsCount(p: Header, n: nat)
    ensures |Returns(p, n)| == n / 256 * 16 + Min(n % 256, 16)
  {
    if n == 0 {
    } else {
      ReturnsCount(p, n - 1);
      CountStep(n - 1);
    }
  }

  lemma CountStep(k: nat)
    ensures (k + 1) / 256 * 16 + Min((k + 1) % 256, 16)
      == k / 256 * 16 + Min(k % 256, 16) + if Epoch(k) == 0 then 1 else 0
  {
    var q, r := k / 256, k % 256;
    assert k == 256 * q + r;
    assert k / 16 == 16 * q + r / 16;
    assert Epoch(k) == r / 16;
    if r < 255 {
      assert (k + 1) / 256 == q && (k + 1) % 256 == r + 1;
    } else {
      assert (k + 1) / 256 == q + 1 && (k + 1) % 256 == 0;
    }
  }

  /** How many packets it takes until p has come r times. */
  function Until(r: nat): (n: nat)
    requires r > 0
    ensures n > 0
  {
    (r - 1) / 16 * 256 + (r - 1) % 16 + 1
  }

  lemma {:induction false} UntilIsExact(p: Header, z: Ip, r: nat)
    requires r > 0
    ensures |Returns(p, Until(r))| == r && Last(Periodic(p, z, Until(r))) == p.(frameCount := Until(r) - 1)
  {
    var q, s, n := (r - 1) / 16, (r - 1) % 16, Until(r);
    ReturnsCount(p, n);
    assert r - 1 == 16 * q + s && n == 256 * q + (s + 1);
    assert n / 256 == q && n % 256 == s + 1;
    CountStep(n - 1);
    assert (n - 1) / 256 == q && (n - 1) % 256 == s;
  }

  // ----- what a cell holds -----

  function Bytes(r: seq<Header>): nat {
    if r == [] then 0 else Bytes(Init(r)) + Last(r).size
  }

  function Syns(r: seq<Header>): nat {
    if r == [] then 0 else Syns(Init(r)) + if SynGate(Last(r)) then 1 else 0
  }

  ghost function Ports(r: seq<Header>): Bitmap {
    set p <- r | SynGate(p) :: PortBit(p.dstPort)
  }

  ghost function Hosts(r: seq<Header>): Bitmap {
    set p <- r | SynGate(p) :: HostBit(p.dst)
  }

  ghost function AllFlags(r: seq<Header>): Bitmap {
    set p <- r, k <- p.tcpFlags :: k
  }

  /** A run's totals, capped, and the images of its SYN packets' ports and hosts. */
  ghost function Summary(r: seq<Header>): Cell {
    if r == [] then Blank(0, 0)
    else Cell(Fp(Last(r).src), Epoch(Last(r).frameCount), Min(|r|, RATE_MAX), Min(Bytes(r), BYTE_MAX),
              Min(Syns(r), SYN_MAX), Ports(r), Hosts(r), AllFlags(r))
  }

  lemma SetsGrow(r: seq<Header>, p: Header)
    ensures Ports(r + [p]) == if SynGate(p) then Ports(r) + {PortBit(p.dstPort)} else Ports(r)
    ensures Hosts(r + [p]) == if SynGate(p) then Hosts(r) + {HostBit(p.dst)} else Hosts(r)
    ensures AllFlags(r + [p]) == AllFlags(r) + p.tcpFlags
  {
    assert forall q :: q in r + [p] <==> q in r || q == p;
  }

  lemma CountExtends(r: seq<Header>, p: Header)
    requires r == [] || Key(Last(r)) == Key(p)
    ensures Count(if r == [] then Blank(Epoch(p.frameCount), Fp(p.src)) else Summary(r), p) == Summary(r + [p])
  {
    SetsGrow(r, p);
    assert Init(r + [p]) == r;
    assert Ports([]) == {} && Hosts([]) == {} && AllFlags([]) == {};
    hide Fp, Epoch, PortBit, HostBit, SynGate, Ports, Hosts, AllFlags;
    assert Bytes(r + [p]) == Bytes(r) + p.size;
    assert Syns(r + [p]) == Syns(r) + if SynGate(p) then 1 else 0;
  }

  lemma AbsorbExtends(r: seq<Header>, p: Header)
    ensures Absorb(Summary(r), p) == Summary(if r != [] && Key(Last(r)) == Key(p) then r + [p] else [p])
  {
    hide Fp, Epoch, Count;
    if r != [] && Key(Last(r)) == Key(p) {
      CountExtends(r, p);
    } else {
      CountExtends([], p);
      assert [] + [p] == [p];
    }
  }

  /** After any stream every cell holds exactly its bucket's current run. */
  lemma {:induction false} CellsHoldRuns(h: seq<Header>, b: nat)
    requires b < DEPTH
    ensures Table(h)[b] == Summary(Run(h, b))
  {
    if h == [] {
    } else {
      CellsHoldRuns(Init(h), b);
      AbsorbExtends(Run(Init(h), b), Last(h));
    }
  }

  /** In numbers: what the cell of a bucket says about its run r. */
  lemma {:induction false} CellCounts(h: seq<Header>, b: nat)
    requires b < DEPTH && Run(h, b) != []
    ensures var c, r := Table(h)[b], Run(h, b);
      && c.fp == Fp(Last(r).src) && c.epoch == Last(r).frameCount / 16 % 16
      && c.pkts == Min(|r|, 16383) && c.bytes == Min(Bytes(r), 16777215) && c.syns == Min(SynPackets(r), 4095)
      && forall k :: k in c.flags <==> exists p <- r :: k in p.tcpFlags
  {
    hide Fp, Bucket, PortBit, HostBit, Run;
    CellsHoldRuns(h, b);
    SameSyns(Run(h, b));
  }

  /** How many packets of r have SYN set and ACK clear. */
  function SynPackets(r: seq<Header>): nat {
    if r == [] then 0
    else
      SynPackets(Init(r)) + if Last(r).proto == 6 && 1 in Last(r).tcpFlags && 4 !in Last(r).tcpFlags then 1 else 0
  }

  lemma {:induction false} SameSyns(r: seq<Header>)
    ensures SynPackets(r) == Syns(r)
  {
    if r == [] {
    } else {
      SameSyns(Init(r));
    }
  }

  // ----- alarms -----

  /** What the table reports for the last packet of a stream. */
  ghost function VerdictAfter(h: seq<Header>, lim: Limits): (bool, bool)
    requires h != []
  {
    Verdict(Table(h)[Bucket(Last(h).src)], lim)
  }

  lemma {:induction false} RunEndsWithLast(h: seq<Header>)
    requires h != []
    ensures var r := Run(h, Bucket(Last(h).src)); r != [] && Last(r) == Last(h)
  {
  }

  /** The ports and hosts that the TCP packets with SYN and without ACK address, and their bits. */
  ghost function DistinctPorts(r: seq<Header>): set<nat> {
    set p <- r | p.proto == 6 && 1 in p.tcpFlags && 4 !in p.tcpFlags :: p.dstPort
  }

  ghost function DistinctHosts(r: seq<Header>): set<Ip> {
    set p <- r | p.proto == 6 && 1 in p.tcpFlags && 4 !in p.tcpFlags :: p.dst
  }

  ghost function PortBits(r: seq<Header>): set<nat> {
    set port <- DistinctPorts(r) :: PortBit(port)
  }

  ghost function HostBits(r: seq<Header>): set<nat> {
    set host <- DistinctHosts(r) :: HostBit(host)
  }

  lemma {:induction false} PortImageSize(s: set<nat>)
    ensures |set x <- s :: PortBit(x)| <= |s|
    decreases |s|
  {
    hide PortBit;
    if s == {} {
      assert (set x <- s :: PortBit(x)) == {};
    } else {
      var x :| x in s;
      PortImageSize(s - {x});
      assert (set y <- s :: PortBit(y)) == (set y <- s - {x} :: PortBit(y)) + {PortBit(x)};
    }
  }

  lemma {:induction false} HostImageSize(s: set<Ip>)
    ensures |set x <- s :: HostBit(x)| <= |s|
    decreases |s|
  {
    hide HostBit;
    if s == {} {
      assert (set x <- s :: HostBit(x)) == {};
    } else {
      var x :| x in s;
      HostImageSize(s - {x});
      assert (set y <- s :: HostBit(y)) == (set y <- s - {x} :: HostBit(y)) + {HostBit(x)};
    }
  }

  lemma BitmapsAreBits(r: seq<Header>)
    ensures Ports(r) == PortBits(r) && Hosts(r) == HostBits(r)
  {
    hide PortBit, HostBit;
  }

  lemma BitmapsCountDistinct(r: seq<Header>)
    ensures |Ports(r)| <= |DistinctPorts(r)| && |Hosts(r)| <= |DistinctHosts(r)|
  {
    hide PortBit, HostBit, SynGate, DistinctPorts, DistinctHosts;
    BitmapsAreBits(r);
    PortImageSize(DistinctPorts(r));
    HostImageSize(DistinctHosts(r));
  }

  /** Scan alarms are sound: the current run really touched that many distinct ports or hosts. The
      rate alarm is exact for every threshold that the counter can reach. */
  lemma {:induction false} AlarmsAreSound(h: seq<Header>, lim: Limits)
    requires h != []
    ensures var r, v := Run(h, Bucket(Last(h).src)), VerdictAfter(h, lim);
      && (v.0 ==> |DistinctPorts(r)| >= lim.port || |DistinctHosts(r)| >= lim.host)
      && (v.1 <==> lim.rate <= Min(|r|, RATE_MAX))
  {
    hide Bucket, Fp, Epoch, Ports, Hosts, AllFlags, DistinctPorts, DistinctHosts;
    var b := Bucket(Last(h).src);
    CellsHoldRuns(h, b);
    RunEndsWithLast(h);
    BitmapsCountDistinct(Run(h, b));
  }

  /** And complete: the last packet is reported as a scan exactly when the run's SYN packets reach that many
      port or host bits, and at a rate exactly when the run reaches that length, up to 16383 packets. */
  lemma {:induction false} AlarmsAreExact(h: seq<Header>, lim: Limits)
    requires h != []
    ensures var r, v := Run(h, Bucket(Last(h).src)), VerdictAfter(h, lim);
      && (v.0 <==> |PortBits(r)| >= lim.port || |HostBits(r)| >= lim.host)
      && (v.1 <==> |r| >= lim.rate && lim.rate <= 16383)
  {
    hide Bucket, Fp, Epoch, Ports, Hosts, AllFlags, PortBits, HostBits;
    var b := Bucket(Last(h).src);
    CellsHoldRuns(h, b);
    RunEndsWithLast(h);
    BitmapsAreBits(Run(h, b));
  }

  lemma {:induction false} TargetsAtMostLength(r: seq<Header>)
    ensures |DistinctPorts(r)| <= |r| && |DistinctHosts(r)| <= |r|
  {
    if r == [] {
    } else {
      var was, p := Init(r), Last(r);
      TargetsAtMostLength(was);
      assert r == was + [p];
      SubsetSize(DistinctPorts(r), DistinctPorts(was) + {p.dstPort});
      SubsetSize(DistinctHosts(r), DistinctHosts(was) + {p.dst});
    }
  }

  /** A run shorter than every threshold is not reported. */
  lemma {:induction false} ShortRunIsQuiet(h: seq<Header>, lim: Limits)
    requires h != []
    requires var r := Run(h, Bucket(Last(h).src)); |r| < lim.port && |r| < lim.host && |r| < lim.rate
    ensures VerdictAfter(h, lim) == (false, false)
  {
    hide Run, Bucket, DistinctPorts, DistinctHosts, VerdictAfter;
    AlarmsAreSound(h, lim);
    TargetsAtMostLength(Run(h, Bucket(Last(h).src)));
  }

  /** How many packets source x sent in epoch e. */
  ghost function Sent(h: seq<Header>, x: Ip, e: nat): nat {
    if h == [] then 0
    else Sent(Init(h), x, e) + if Last(h).src == x && Epoch(Last(h).frameCount) == e then 1 else 0
  }

  /** A run of one source is no longer than what that source sent in its epoch. */
  lemma {:induction false} RunAtMostSent(h: seq<Header>, b: nat, x: Ip)
    requires Run(h, b) != [] && forall p <- Run(h, b) :: p.src == x
    ensures |Run(h, b)| <= Sent(h, x, Epoch(Last(Run(h, b)).frameCount))
  {
    hide Bucket, Fp, Epoch;
    var was, p := Run(Init(h), b), Last(h);
    if Run(h, b) == [p] {
      assert p in Run(h, b);
    } else {
      assert was != [] && forall q <- was :: q in Run(h, b);
      RunAtMostSent(Init(h), b, x);
      if Run(h, b) != was {
        assert Run(h, b) == was + [p] && p in Run(h, b);
      }
    }
  }

  // ----- who shares a cell's state -----

  ghost predicate OneSource(r: seq<Header>, x: Ip) {
    forall p <- r :: p.src == x
  }

  /** Two sources that the table can tell apart: another bucket or another fingerprint. */
  predicate Separable(x: Ip, y: Ip) {
    Bucket(x) != Bucket(y) || Fp(x) != Fp(y)
  }

  lemma {:induction false} RunMembers(h: seq<Header>, b: nat)
    ensures forall p <- Run(h, b) :: p in h && Bucket(p.src) == b
    ensures forall p <- Run(h, b) :: Key(p) == Key(Last(Run(h, b)))
  {
    hide Key, Bucket;
    if h == [] {
    } else {
      RunMembers(Init(h), b);
      assert forall p <- Init(h) :: p in h;
    }
  }

  /** Packets of one source in one epoch form the run, when the bucket saw none of that epoch before. */
  lemma {:induction false} FreshRun(h: seq<Header>, g: seq<Header>, x: Ip, e: nat)
    requires g != [] && forall p <- g :: p.src == x && Epoch(p.frameCount) == e
    requires forall p <- h :: Bucket(p.src) != Bucket(x) || Epoch(p.frameCount) != e
    ensures Run(h + g, Bucket(x)) == g
  {
    hide Bucket, Fp, Epoch;
    var was, p := Init(g), Last(g);
    assert Init(h + g) == h + was && p in g;
    if was == [] {
      assert h + was == h && g == [p];
      RunMembers(h, Bucket(x));
      var r := Run(h, Bucket(x));
      assert r != [] ==> Last(r) in r;
    } else {
      assert forall q <- was :: q in g;
      FreshRun(h, was, x, e);
      assert Last(was) in was;
    }
  }

  /** When every two sources of a stream are separable, no source ever leaks into another's state. */
  lemma {:induction false} SeparableSourcesNeverMix(h: seq<Header>, b: nat)
    requires forall p <- h, q <- h :: p.src == q.src || Separable(p.src, q.src)
    ensures var r := Run(h, b); r != [] ==> OneSource(r, Last(r).src)
  {
    RunMembers(h, b);
  }

  /** Streams of x and y in which x's packets are judged together with a packet of y. */
  ghost predicate Mixes(h: seq<Header>, x: Ip, y: Ip) {
    && h != [] && Last(h).src == x
    && (forall p <- h :: p.src == x || p.src == y)
    && !OneSource(Run(h, Bucket(x)), x)
  }

  /** Two sources can be merged silently exactly when bucket and fingerprint both collide. */
  lemma MixIffInseparable(x: Ip, y: Ip)
    requires x != y
    ensures (exists h :: Mixes(h, x, y)) <==> !Separable(x, y)
  {
    if h: seq<Header> :| Mixes(h, x, y) {
      RunMembers(h, Bucket(x));
      RunEndsWithLast(h);
    }
    if !Separable(x, y) {
      var p, q := Header(y, 0, 0, 0, 0, {}, 0, 0), Header(x, 0, 0, 0, 0, {}, 0, 0);
      TwoPacketRun(p, q);
      assert Mixes([p, q], x, y);
    }
  }

  lemma TwoPacketRun(p: Header, q: Header)
    requires Bucket(p.src) == Bucket(q.src) && Key(p) == Key(q)
    ensures Run([p, q], Bucket(q.src)) == [p, q]
  {
    hide Bucket, Key;
    assert Init([p, q]) == [p] && Init([p]) == [];
    assert Run([p], Bucket(q.src)) == [p];
  }

  lemma ProductIs(x: nat, a: nat, high: nat, low: nat)
    requires x * a == high * TWO32 + low && low < TWO32
    ensures x * a % TWO32 == low
  {
  }

  /** Such pairs exist: 10.0.0.1 and 44.137.243.240. */
  lemma InseparablePair()
    ensures !Separable(0x0A00_0001, 0x2C89_F3F0)
  {
    ProductIs(0x0A000001, A1, 0x62E2AC1, 0x883779B1);
    ProductIs(0x0A000001, A2, 0x53B35E9, 0x2BEBCA77);
    ProductIs(0x2C89F3F0, A1, 0x1B86CB5D, 0x883E18F0);
    ProductIs(0x2C89F3F0, A2, 0x174CB198, 0x2BEBC490);
  }
}
