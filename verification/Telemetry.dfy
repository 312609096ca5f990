/** The telemetry wrapper (telemetry_model.py): both sketches, the running top source, and a
    snapshot latched at every window boundary. */
module Telemetry {
  import opened Words
  import opened Stream
  import C = CountMin
  import H = HyperLogLog

  datatype Snapshot = Snapshot(windowIndex: nat, totalPackets: nat, harmonicSum: int, zeros: int,
                               top1Count: nat, top1Key: Ip)

  datatype Tel = Tel(cms: C.Sketch, hll: H.Hll, windowIndex: nat, totalPackets: nat,
                     top1Count: nat, top1Key: Ip, snapshot: Option<Snapshot>) {
    ghost predicate Valid() {
      cms.Valid() && hll.Valid()
    }

    function Packet(ip: Ip): (t: Tel)
      requires Valid()
      ensures t.Valid()
    {
      var counted := cms.Bump(ip);
      var c := counted.Query(ip);
      this.(cms := counted, hll := hll.Touch(ip), totalPackets := totalPackets + 1,
            top1Count := if c > top1Count then c else top1Count,
            top1Key := if c > top1Count then ip else top1Key)
    }

    function Current(): Snapshot {
      Snapshot(windowIndex, totalPackets, hll.harmonicSum, hll.zeros, top1Count, top1Key)
    }

    function Tick(): Tel {
      Tel(cms.Tick(), hll.Tick(), Word16(windowIndex + 1), 0, 0, 0, Some(Current()))
    }
  }

  function Fresh(): (t: Tel)
    ensures t.Valid()
  {
    Tel(C.Fresh(), H.Fresh(), 0, 0, 0, 0, None)
  }

  class Telemetry {
    const cms: C.CountMin
    const hll: H.HyperLogLog
    var windowIndex: nat
    var totalPackets: nat
    var top1Count: nat
    var top1Key: Ip
    var snapshot: Option<Snapshot>

    ghost function State(): Tel
      reads this, cms, hll
    {
      Tel(cms.State(), hll.State(), windowIndex, totalPackets, top1Count, top1Key, snapshot)
    }

    ghost predicate Valid()
      reads this, cms, hll
    {
      State().Valid()
    }

    constructor ()
      ensures Valid() && State() == Fresh() && fresh(cms) && fresh(hll)
    {
      cms := new C.CountMin();
      hll := new H.HyperLogLog();
      windowIndex, totalPackets, top1Count, top1Key, snapshot := 0, 0, 0, 0, None;
    }

    method Update(ip: Ip)
      requires Valid()
      modifies this, cms, hll
      ensures Valid() && State() == old(State()).Packet(ip)
    {
      hide C.Sketch.Valid, C.Sketch.Bump, C.Sketch.Query, C.CountMin.PointQuery, H.Hll.Valid, H.Hll.Touch;
      cms.Update(ip);
      hll.Update(ip);
      totalPackets := totalPackets + 1;
      var c := cms.PointQuery(ip);
      if c > top1Count {
        top1Count := c;
        top1Key := ip;
      }
    }

    function PointQuery(ip: Ip): (m: nat)
      requires Valid()
      reads this, cms, hll
      ensures m == State().cms.Query(ip)
    {
      cms.PointQuery(ip)
    }

    method WindowTick()
      requires Valid()
      modifies this, cms, hll
      ensures Valid() && State() == old(State()).Tick()
    {
      snapshot := Some(Snapshot(windowIndex, totalPackets, hll.harmonicSum, hll.zeros, top1Count, top1Key));
      cms.WindowTick();
      hll.WindowTick();
      windowIndex := Word16(windowIndex + 1);
      totalPackets := 0;
      top1Count := 0;
      top1Key := 0;
    }
  }

  // ----- whole runs -----

  function After(es: seq<Event>): (t: Tel)
    ensures t.Valid()
  {
    if es == [] then Fresh()
    else match Last(es)
      case Packet(ip) => After(Init(es)).Packet(ip)
      case Tick => After(Init(es)).Tick()
  }

  lemma {:induction false} Components(es: seq<Event>)
    ensures After(es).cms == C.After(es) && After(es).hll == H.After(es)
    ensures After(es).totalPackets == |Window(es)|
    ensures After(es).windowIndex < 0x1_0000
  {
    hide C.Sketch.Bump, C.Sketch.Query, H.Hll.Touch, C.Sketch.Valid, H.Hll.Valid, Word16;
    if es == [] {
    } else {
      Components(Init(es));
    }
  }

  // ----- the top source -----

  lemma BumpRaises(s: C.Sketch, ip: Ip, x: Ip)
    requires s.Valid()
    ensures s.Query(x) <= s.Bump(ip).Query(x)
  {
    var t := s.Bump(ip);
    var j :| 0 <= j < C.ROWS && t.Query(x) == t.At(x, j);
    assert s.At(x, j) <= t.At(x, j);
  }

  lemma {:induction false} TopStep(es: seq<Event>)
    requires es != [] && Last(es).Packet?
    ensures var was, now, c := After(Init(es)), After(es), C.After(es).Query(Last(es).src);
      if c > was.top1Count then now.top1Key == Last(es).src && now.top1Count == c
      else now.top1Key == was.top1Key && now.top1Count == was.top1Count
  {
    Components(Init(es));
    hide C.Sketch.Bump, C.Sketch.Query, H.Hll.Touch, C.Sketch.Valid, H.Hll.Valid;
  }

  /** The top count is at least every source's true count (up to saturation), at most the estimate
      of the top key, and the top key has been seen in the window once any packet has. */
  lemma {:induction false} TopSandwich(es: seq<Event>, x: Ip)
    ensures Min(Times(Window(es), x), C.CMS_MAX) <= After(es).top1Count
    ensures After(es).top1Count <= After(es).cms.Query(After(es).top1Key)
    ensures Window(es) != [] ==> After(es).top1Key in Window(es) && After(es).top1Count > 0
  {
    Components(es);
    hide C.Sketch.Bump, C.Sketch.Query, H.Hll.Touch, C.Sketch.Valid, H.Hll.Valid;
    if es == [] {
    } else if Last(es).Packet? {
      var was, ip := After(Init(es)), Last(es).src;
      TopSandwich(Init(es), x);
      BumpRaises(was.cms, ip, was.top1Key);
      TopStep(es);
      C.NeverUnderestimates(es, ip);
      TimesAppend(Window(Init(es)), ip, x);
      TimesAppend(Window(Init(es)), ip, ip);
    }
  }

  /** Every source of h has a row in which no other source of h shares its column. */
  ghost predicate EachHasFreeRow(h: seq<Ip>) {
    forall x <- h :: exists j :: 0 <= j < C.ROWS && FreeIn(h, x, j)
  }

  ghost predicate FreeIn(h: seq<Ip>, x: Ip, j: nat)
    requires j < C.ROWS
  {
    forall y <- h :: C.Column(y, j) == C.Column(x, j) ==> y == x
  }

  lemma {:induction false} FreeRowCounts(h: seq<Ip>, x: Ip, j: nat)
    requires j < C.ROWS && FreeIn(h, x, j)
    ensures C.Hits(h, j, C.Column(x, j)) == Times(h, x)
  {
    if h == [] {
    } else {
      assert h == Init(h) + [Last(h)];
      assert forall y <- Init(h) :: y in h;
      assert Last(h) in h;
      FreeRowCounts(Init(h), x, j);
      TimesAppend(Init(h), Last(h), x);
    }
  }

  /** In a clean window a source with a row to itself is estimated exactly, up to saturation. */
  lemma {:induction false} CleanEstimateExact(es: seq<Event>, x: Ip, j: nat)
    requires C.After(Start(es)).Clean()
    requires j < C.ROWS && FreeIn(Window(es), x, j)
    ensures C.After(es).Query(x) == Min(Times(Window(es), x), C.CMS_MAX)
  {
    FreeRowCounts(Window(es), x, j);
    C.CleanWindowIsExact(es, j, C.Column(x, j));
    assert C.After(es).Query(x) <= C.After(es).At(x, j);
    C.NeverUnderestimates(es, x);
  }

  lemma {:induction false} LastEstimateExact(es: seq<Event>)
    requires C.After(Start(es)).Clean() && EachHasFreeRow(Window(es)) && es != [] && Last(es).Packet?
    ensures C.After(es).Query(Last(es).src) == Min(Times(Window(es), Last(es).src), C.CMS_MAX)
  {
    var x := Last(es).src;
    assert x in Window(es);
    var j :| 0 <= j < C.ROWS && FreeIn(Window(es), x, j);
    CleanEstimateExact(es, x, j);
  }

  /** What is latched is the window that the last tick closed. */
  lemma {:induction false} LatchedIsClosed(es: seq<Event>)
    ensures Start(es) == [] ==> After(es).snapshot == None
    ensures Start(es) != [] ==> After(es).snapshot == Some(After(Init(Start(es))).Current())
  {
    hide C.Sketch.Bump, C.Sketch.Query, C.Sketch.Tick, H.Hll.Touch, H.Hll.Tick, C.Fresh, H.Fresh;
    if es == [] {
    } else if Last(es).Packet? {
      LatchedIsClosed(Init(es));
    }
  }

  /** When that window was clean and its top source is alone in some row, the latched count is the source's
      true count, up to the cap. */
  lemma {:induction false} LatchedCountIsTrue(es: seq<Event>, j: nat)
    requires Start(es) != [] && C.After(Start(Init(Start(es)))).Clean()
    requires var closed := Init(Start(es)); j < C.ROWS && FreeIn(Window(closed), After(closed).top1Key, j)
    ensures var closed := Init(Start(es));
      After(es).snapshot.Some?
      && After(es).snapshot.value.top1Count == Min(Times(Window(closed), After(es).snapshot.value.top1Key), 16383)
  {
    hide After, C.After, Times, Window, C.Sketch.Query, FreeIn;
    var closed := Init(Start(es));
    LatchedIsClosed(es);
    Components(closed);
    TopSandwich(closed, After(closed).top1Key);
    CleanEstimateExact(closed, After(closed).top1Key, j);
  }

  /** key reaches the largest count any source has in h, and does so before every other source. */
  ghost predicate FirstToReachMax(h: seq<Ip>, key: Ip, count: nat) {
    && (forall x :: Times(h, x) <= count)
    && exists n :: 0 < n <= |h| && ReachesAt(h, key, count, n)
  }

  ghost predicate ReachesAt(h: seq<Ip>, key: Ip, count: nat, n: nat)
    requires 0 < n <= |h|
  {
    && h[n - 1] == key && Times(h[..n], key) == count
    && forall x, k :: 0 <= k < n ==> Times(h[..k], x) < count
  }

  lemma LeaderStays(h: seq<Ip>, y: Ip, key: Ip, count: nat)
    requires FirstToReachMax(h, key, count)
    requires Times(h + [y], y) <= count
    ensures FirstToReachMax(h + [y], key, count)
  {
    var g := h + [y];
    forall x ensures Times(g, x) <= count { TimesAppend(h, y, x); }
    var n :| 0 < n <= |h| && ReachesAt(h, key, count, n);
    assert forall k :: 0 <= k <= n ==> g[..k] == h[..k];
    assert ReachesAt(g, key, count, n);
  }

  lemma {:induction false} TimesOfPrefix(h: seq<Ip>, k: nat, x: Ip)
    requires k <= |h|
    ensures Times(h[..k], x) <= Times(h, x)
  {
    assert h == h[..k] + h[k..];
  }

  lemma NewLeader(h: seq<Ip>, y: Ip, count: nat)
    requires forall x :: Times(h, x) <= count
    requires Times(h + [y], y) == count + 1
    ensures FirstToReachMax(h + [y], y, count + 1)
  {
    var g := h + [y];
    forall x ensures Times(g, x) <= count + 1 { TimesAppend(h, y, x); }
    forall x, k | 0 <= k < |g|
      ensures Times(g[..k], x) < count + 1
    {
      assert g[..k] == h[..k];
      TimesOfPrefix(h, k, x);
    }
    assert g[..|g|] == g;
    assert ReachesAt(g, y, count + 1, |g|);
  }

  /** The leader's fields after a packet of y that brings y's count to c. */
  lemma LeaderStep(h: seq<Ip>, y: Ip, key: Ip, count: nat, key': Ip, count': nat)
    requires if h == [] then count == 0 else FirstToReachMax(h, key, count)
    requires var c := Times(h + [y], y);
      if c > count then key' == y && count' == c else key' == key && count' == count
    ensures FirstToReachMax(h + [y], key', count')
  {
    TimesAppend(h, y, y);
    if Times(h + [y], y) > count {
      NewLeader(h, y, count);
    } else {
      LeaderStays(h, y, key, count);
    }
  }

  /** In a clean window where each source has a row to itself and none saturates, the top source is
      the first one to reach the largest true count. */
  lemma {:induction false} TopIsFirstToReachMax(es: seq<Event>)
    requires C.After(Start(es)).Clean() && EachHasFreeRow(Window(es)) && Window(es) != []
    requires forall x :: Times(Window(es), x) <= C.CMS_MAX
    ensures FirstToReachMax(Window(es), After(es).top1Key, After(es).top1Count)
  {
    hide After, C.After, FirstToReachMax, EachHasFreeRow, Times;
    var h, y := Window(Init(es)), Last(es).src;
    assert Window(es) == h + [y] && Start(es) == Start(Init(es));
    if h == [] {
      EmptyWindowHasNoTop(Init(es));
    } else {
      forall x ensures Times(h, x) <= C.CMS_MAX { TimesAppend(h, y, x); }
      FreeRowsOfPrefix(h, y);
      TopIsFirstToReachMax(Init(es));
    }
    TopStep(es);
    LastEstimateExact(es);
    LeaderStep(h, y, After(Init(es)).top1Key, After(Init(es)).top1Count, After(es).top1Key, After(es).top1Count);
  }

  lemma FreeRowsOfPrefix(h: seq<Ip>, y: Ip)
    requires EachHasFreeRow(h + [y])
    ensures EachHasFreeRow(h)
  {
    forall x | x in h
      ensures exists j :: 0 <= j < C.ROWS && FreeIn(h, x, j)
    {
      assert x in h + [y];
      var j :| 0 <= j < C.ROWS && FreeIn(h + [y], x, j);
      forall z | z in h ensures z in h + [y] {}
      assert FreeIn(h, x, j);
    }
  }

  lemma {:induction false} EmptyWindowHasNoTop(es: seq<Event>)
    requires Window(es) == []
    ensures After(es).top1Count == 0 && After(es).top1Key == 0 && After(es).totalPackets == 0
  {
  }

  // ----- window independence and conservation -----

  function Packets(h: seq<Ip>): (es: seq<Event>)
    ensures |es| == |h|
  {
    if h == [] then [] else Packets(Init(h)) + [Packet(Last(h))]
  }

  /** Both telemetries answer every question about the current window alike. */
  ghost predicate ReadAlike(a: Tel, b: Tel)
    requires a.Valid() && b.Valid()
  {
    && (forall j, c :: 0 <= j < C.ROWS && 0 <= c < C.COLS ==> a.cms.Live(j, c) == b.cms.Live(j, c))
    && (forall i :: 0 <= i < H.HLL_M ==> a.hll.Live(i) == b.hll.Live(i))
    && a.Current().(windowIndex := 0) == b.Current().(windowIndex := 0)
  }

  lemma BumpKeepsAlike(a: C.Sketch, b: C.Sketch, ip: Ip)
    requires a.Valid() && b.Valid()
    requires forall j, c :: 0 <= j < C.ROWS && 0 <= c < C.COLS ==> a.Live(j, c) == b.Live(j, c)
    ensures forall j, c :: 0 <= j < C.ROWS && 0 <= c < C.COLS ==> a.Bump(ip).Live(j, c) == b.Bump(ip).Live(j, c)
  {
    forall j, c | 0 <= j < C.ROWS && 0 <= c < C.COLS
      ensures a.Bump(ip).Live(j, c) == b.Bump(ip).Live(j, c)
    {
      C.BumpCounts(a, ip, j, c);
      C.BumpCounts(b, ip, j, c);
    }
  }

  lemma AlikeEstimates(a: C.Sketch, b: C.Sketch, ip: Ip)
    requires a.Valid() && b.Valid()
    requires forall j, c :: 0 <= j < C.ROWS && 0 <= c < C.COLS ==> a.Live(j, c) == b.Live(j, c)
    ensures a.Query(ip) == b.Query(ip)
  {
    hide C.Column;
    assert forall j :: 0 <= j < C.ROWS ==> a.At(ip, j) == b.At(ip, j);
  }

  lemma TouchKeepsAlike(a: H.Hll, b: H.Hll, ip: Ip)
    requires a.Valid() && b.Valid()
    requires forall i :: 0 <= i < H.HLL_M ==> a.Live(i) == b.Live(i)
    requires a.harmonicSum == b.harmonicSum && a.zeros == b.zeros
    ensures forall i :: 0 <= i < H.HLL_M ==> a.Touch(ip).Live(i) == b.Touch(ip).Live(i)
    ensures a.Touch(ip).harmonicSum == b.Touch(ip).harmonicSum && a.Touch(ip).zeros == b.Touch(ip).zeros
  {
    assert a.Live(H.Bucket(ip)) == b.Live(H.Bucket(ip));
    forall i | 0 <= i < H.HLL_M
      ensures a.Touch(ip).Live(i) == b.Touch(ip).Live(i)
    {
      H.TouchRaises(a, ip, i);
      H.TouchRaises(b, ip, i);
    }
  }

  lemma PacketKeepsAlike(a: Tel, b: Tel, ip: Ip)
    requires a.Valid() && b.Valid() && ReadAlike(a, b)
    ensures ReadAlike(a.Packet(ip), b.Packet(ip))
  {
    BumpKeepsAlike(a.cms, b.cms, ip);
    AlikeEstimates(a.cms.Bump(ip), b.cms.Bump(ip), ip);
    TouchKeepsAlike(a.hll, b.hll, ip);
    hide C.Sketch.Bump, C.Sketch.Query, H.Hll.Touch, C.Sketch.Valid, H.Hll.Valid;
  }

  lemma {:induction false} CleanWindowReadsLikeFresh(es: seq<Event>)
    requires After(Start(es)).cms.Clean() && After(Start(es)).hll.Clean()
    ensures ReadAlike(After(es), After(Packets(Window(es))))
  {
    if es == [] {
    } else if Last(es).Packet? {
      CleanWindowReadsLikeFresh(Init(es));
      var h := Window(Init(es));
      assert Init(Window(es)) == h && Last(Window(es)) == Last(es).src;
      PacketKeepsAlike(After(Init(es)), After(Packets(h)), Last(es).src);
      assert Init(Packets(Window(es))) == Packets(h);
    }
  }

  /** The snapshot of a clean window is that of a new telemetry fed the window's packets alone. */
  lemma {:induction false} WindowsAreIndependent(es: seq<Event>)
    requires After(Start(es)).cms.Clean() && After(Start(es)).hll.Clean()
    ensures var alone := After(Packets(Window(es)) + [Tick]).snapshot.value;
      After(es + [Tick]).snapshot == Some(alone.(windowIndex := Word16(Ticks(es))))
  {
    CleanWindowReadsLikeFresh(es);
    assert Init(es + [Tick]) == es;
    assert Init(Packets(Window(es)) + [Tick]) == Packets(Window(es));
    IndexCountsTicks(es);
  }

  lemma {:induction false} IndexCountsTicks(es: seq<Event>)
    ensures After(es).windowIndex == Word16(Ticks(es))
  {
    hide C.Sketch.Bump, C.Sketch.Query, H.Hll.Touch, C.Sketch.Valid, H.Hll.Valid;
    assert Word16(0) == 0;
    hide Word16;
    if es == [] {
    } else {
      Word16Next(Ticks(Init(es)));
      IndexCountsTicks(Init(es));
    }
  }

  /** Every snapshot a run latches, in order. */
  ghost function Latched(es: seq<Event>): seq<Snapshot> {
    if es == [] then []
    else Latched(Init(es)) + if Last(es).Tick? then [After(Init(es)).Current()] else []
  }

  function TotalOf(snaps: seq<Snapshot>): nat {
    if snaps == [] then 0 else TotalOf(Init(snaps)) + Last(snaps).totalPackets
  }

  function PacketCount(es: seq<Event>): nat {
    if es == [] then 0 else PacketCount(Init(es)) + if Last(es).Packet? then 1 else 0
  }

  lemma {:induction false} PacketCountCounts(es: seq<Event>)
    ensures PacketCount(es) == |set k: nat | k < |es| && es[k].Packet?|
  {
    if es == [] {
    } else {
      var was, n := Init(es), |es| - 1;
      PacketCountCounts(was);
      assert (set k: nat | k < |es| && es[k].Packet?)
        == (set k: nat | k < |was| && was[k].Packet?) + if es[n].Packet? then {n} else {};
    }
  }

  /** No packet is lost or counted twice: latched totals and the current total add up to the updates. */
  lemma {:induction false} PacketsAreConserved(es: seq<Event>)
    ensures TotalOf(Latched(es)) + After(es).totalPackets == PacketCount(es)
  {
    hide C.Sketch.Bump, C.Sketch.Query, H.Hll.Touch, C.Sketch.Valid, H.Hll.Valid, Word16;
    if es == [] {
    } else {
      PacketsAreConserved(Init(es));
      if Last(es).Tick? {
        TotalOfAppend(Latched(Init(es)), After(Init(es)).Current());
      } else {
        assert Latched(es) == Latched(Init(es));
      }
    }
  }

  lemma {:induction false} TotalOfAppend(snaps: seq<Snapshot>, s: Snapshot)
    ensures TotalOf(snaps + [s]) == TotalOf(snaps) + s.totalPackets
  {
    assert Init(snaps + [s]) == snaps;
  }
}
