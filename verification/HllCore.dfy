/** The clocked HyperLogLog core (fpga/src/hll.v): a 5-phase update machine with an asynchronous
    window tick, against the atomic sketch of module HyperLogLog. */
module HllCore {
  import opened Words
  import opened Stream
  import opened HyperLogLog

  /** The inputs of one clock edge; the query port is tied low in the design. */
  datatype Pins = Pins(srcIp: Ip, updValid: bool, winTick: bool)

  // ----- the specification -----

  /** How many edges ago the packet in flight was accepted; 0 when idle. */
  function Busy(ins: seq<Pins>): (n: nat)
    ensures n < 5
  {
    if ins == [] then 0
    else if Busy(Init(ins)) == 0 then (if Last(ins).updValid then 1 else 0)
    else if Busy(Init(ins)) == 4 then 0
    else Busy(Init(ins)) + 1
  }

  /** The source last accepted. */
  function Accepted(ins: seq<Pins>): Ip {
    if ins == [] then 0
    else if Busy(Init(ins)) == 0 && Last(ins).updValid then Last(ins).srcIp
    else Accepted(Init(ins))
  }

  /** What the core performs: a packet, a tick, or both on the edge that writes the packet's register. */
  datatype Op = Count(ip: Ip) | Advance | Both(ip: Ip)

  /** The operations in the order in which they take effect: a packet four edges after its acceptance. */
  function Linear(ins: seq<Pins>): seq<Op> {
    if ins == [] then []
    else Linear(Init(ins)) + Done(Busy(Init(ins)) == 4, Last(ins).winTick, Accepted(Init(ins)))
  }

  function Done(written: bool, tick: bool, ip: Ip): seq<Op> {
    if written && tick then [Both(ip)] else if written then [Count(ip)] else if tick then [Advance] else []
  }

  /** Packet and tick on one edge: the aggregates that the packet assigns override the cleared ones. */
  ghost function Tear(s: Hll, ip: Ip): (t: Hll)
    requires s.Valid()
    ensures t.Valid()
  {
    if s.Raises(ip) then
      var r := s.Touch(ip);
      Hll(Nibble(s.epoch + 1), r.reg, r.harmonicSum, if s.Live(Bucket(ip)) == 0 then r.zeros else HLL_M)
    else
      s.Tick()
  }

  ghost function Perform(s: Hll, op: Op): (t: Hll)
    requires s.Valid()
    ensures t.Valid()
  {
    match op
    case Count(ip) => s.Touch(ip)
    case Advance => s.Tick()
    case Both(ip) => Tear(s, ip)
  }

  /** The sketch after performing the operations one at a time. */
  ghost function Replay(ops: seq<Op>): (s: Hll)
    ensures s.Valid()
  {
    if ops == [] then Fresh() else Perform(Replay(Init(ops)), Last(ops))
  }

  lemma {:induction false} EdgeSchedule(ins: seq<Pins>, i: Pins)
    ensures Busy(ins + [i]) ==
      if Busy(ins) == 0 then (if i.updValid then 1 else 0) else if Busy(ins) == 4 then 0 else Busy(ins) + 1
    ensures Accepted(ins + [i]) == if Busy(ins) == 0 && i.updValid then i.srcIp else Accepted(ins)
    ensures Linear(ins + [i]) == Linear(ins) + Done(Busy(ins) == 4, i.winTick, Accepted(ins))
  {
    assert Init(ins + [i]) == ins;
  }

  /** What one more edge does to the specification. */
  lemma {:induction false} EdgeEffect(ins: seq<Pins>, i: Pins)
    ensures var s, ip := Replay(Linear(ins)), Accepted(ins);
      Replay(Linear(ins + [i])) ==
        if Busy(ins) == 4 then (if i.winTick then Tear(s, ip) else s.Touch(ip)) else if i.winTick then s.Tick() else s
  {
    EdgeSchedule(ins, i);
    hide Busy, Accepted, Linear, Hll.Touch, Hll.Tick, Tear;
    var ops, done := Linear(ins), Done(Busy(ins) == 4, i.winTick, Accepted(ins));
    if done != [] {
      assert Init(ops + done) == ops;
    } else {
      assert ops + done == ops;
    }
  }

  // ----- the operations as packets and ticks -----

  /** Packets and ticks in order, the packet first when both fall on one edge. */
  function Events(ops: seq<Op>): seq<Event> {
    if ops == [] then []
    else
      Events(Init(ops)) + match Last(ops)
                          case Count(ip) => [Packet(ip)]
                          case Advance => [Tick]
                          case Both(ip) => [Packet(ip)] + [Tick]
  }

  /** No tick has met a write that raises a register. */
  ghost predicate NeverTorn(ops: seq<Op>) {
    ops == [] || (NeverTorn(Init(ops)) && (Last(ops).Both? ==> !Replay(Init(ops)).Raises(Last(ops).ip)))
  }

  lemma {:induction false} AfterAppend(es: seq<Event>, x: Ip)
    ensures After(es + [Packet(x)]) == After(es).Touch(x) && After(es + [Tick]) == After(es).Tick()
    ensures After(es + [Packet(x)] + [Tick]) == After(es).Touch(x).Tick()
    ensures After(es + [Tick] + [Packet(x)]) == After(es).Tick().Touch(x)
  {
    hide Hll.Touch, Hll.Tick;
    assert Init(es + [Packet(x)]) == es && Init(es + [Tick]) == es;
    assert Init(es + [Packet(x)] + [Tick]) == es + [Packet(x)] && Init(es + [Tick] + [Packet(x)]) == es + [Tick];
  }

  /** Then they leave the sketch that saw the packets and ticks one at a time. */
  lemma {:induction false} UntornIsSequential(ops: seq<Op>)
    requires NeverTorn(ops)
    ensures Replay(ops) == After(Events(ops))
  {
    hide After;
    if ops == [] {
      NothingSeen();
    } else {
      UntornIsSequential(Init(ops));
      var es, op := Events(Init(ops)), Last(ops);
      match op {
        case Advance =>
          AfterAppend(es, 0);
        case _ =>
          AfterAppend(es, op.ip);
          assert es + ([Packet(op.ip)] + [Tick]) == es + [Packet(op.ip)] + [Tick];
      }
    }
  }

  lemma NothingSeen()
    ensures After([]) == Fresh()
  {
  }

  /** The order of packet and tick always matters: the register written keeps one window's tag or the other's. */
  lemma OrderMatters(s: Hll, ip: Ip)
    requires s.Valid()
    ensures s.Tick().Touch(ip) != s.Touch(ip).Tick()
  {
    hide Bucket, IpRank, Term;
    TouchTags(s, ip, Bucket(ip));
    TouchTags(s.Tick(), ip, Bucket(ip));
    NibbleMoves(s.epoch);
  }

  lemma NibbleMoves(e: nat)
    requires e < 16
    ensures Nibble(e + 1) != e
  {
  }

  lemma TermsShrink(a: nat, b: nat)
    requires b < a <= 22
    ensures Term(a) < Term(b)
  {
    PowersGrow(32 - a, 31 - b);
  }

  /** Packet and tick on one edge leave what the packet first and then the tick leave exactly when the
      packet raises no register, and never what the tick first leaves. */
  lemma {:induction false} TearsIff(es: seq<Event>, ip: Ip)
    ensures var s := After(es);
      && (Tear(s, ip) == s.Touch(ip).Tick() <==> !s.Raises(ip))
      && Tear(s, ip) != s.Tick().Touch(ip)
      && 0 <= Tear(s, ip).harmonicSum <= EMPTY_SUM && 0 <= Tear(s, ip).zeros <= HLL_M
  {
    hide After, Bucket, IpRank, Term;
    var s := After(es);
    AggregatesInRange(es);
    AfterAppend(es, ip);
    AggregatesInRange(es + [Packet(ip)]);
    OrderMatters(s, ip);
    TouchTags(s, ip, Bucket(ip));
    TouchTags(s.Tick(), ip, Bucket(ip));
    NibbleMoves(s.epoch);
    if s.Raises(ip) {
      TermsShrink(IpRank(ip), s.Live(Bucket(ip)));
    }
  }

  /** The edge does not end the window while writing a register that the packet in flight raises. */
  ghost predicate Undisturbed(ins: seq<Pins>, i: Pins) {
    i.winTick && Busy(ins) == 4 ==> !Replay(Linear(ins)).Raises(Accepted(ins))
  }

  /** It does happen: a window that ends four edges after the first packet's acceptance. */
  lemma FirstPacketTears(ip: Ip, x: Ip)
    ensures var idle := Pins(x, false, false);
      !Undisturbed([Pins(ip, true, false), idle, idle, idle], Pins(x, false, true))
  {
    hide Busy, Accepted, Linear, Bucket, IpRank;
    var up, idle := Pins(ip, true, false), Pins(x, false, false);
    StartsIdle();
    EdgeSchedule([], up);
    EdgeSchedule([up], idle);
    EdgeSchedule([up, idle], idle);
    EdgeSchedule([up, idle, idle], idle);
    assert [] + [up] == [up] && [up] + [idle] == [up, idle];
    assert [up, idle] + [idle] == [up, idle, idle] && [up, idle, idle] + [idle] == [up, idle, idle, idle];
  }

  lemma StartsIdle()
    ensures Busy([]) == 0 && Linear([]) == [] && Replay([]) == Fresh()
  {
  }

  // ----- fixed-width arithmetic -----

  /** The low 48 bits. */
  function Word48(x: int): (r: nat)
    ensures r < 0x1_0000_0000_0000
  {
    x % 0x1_0000_0000_0000
  }

  /** The low 12 bits. */
  function Word12(x: int): (r: nat)
    ensures r < 0x1000
  {
    x % 0x1000
  }

  lemma Word48Add(x: int, y: int)
    ensures Word48(Word48(x) + y) == Word48(x + y)
  {
  }

  lemma Word12Add(x: int, y: int)
    ensures Word12(Word12(x) + y) == Word12(x + y)
  {
  }

  lemma WordsFit(x: int, y: int)
    requires 0 <= x < 0x1_0000_0000_0000 && 0 <= y < 0x1000
    ensures Word48(x) == x && Word12(y) == y
  {
  }

  // ----- the hash and the rank -----

  /** The hash up to its first registered multiplication. */
  function FirstMix(ip: Ip): bv32 {
    DoMul1(DoXor16(ip as bv32))
  }

  /** From there to the second. */
  function SecondMix(m1: bv32): bv32 {
    DoMul2(DoXor13(m1))
  }

  function BucketOf(m2: bv32): (b: nat)
    ensures b < HLL_M
  {
    Top11(DoXor16(m2))
  }

  function SuffixOf(m2: bv32): (w: nat)
    ensures w < 0x20_0000
  {
    Low21(DoXor16(m2))
  }

  lemma HashInSteps(ip: Ip)
    ensures BucketOf(SecondMix(FirstMix(ip))) == Bucket(ip)
    ensures RankOf(SuffixOf(SecondMix(FirstMix(ip)))) == IpRank(ip)
  {
    hide DoXor16, DoXor13, DoMul1, DoMul2, Top11, Low21, RankOf;
  }

  /** Bit k of a word. */
  function BitOf(w: nat, k: nat): bool {
    w / Pow2(k) % 2 == 1
  }

  lemma TopBit(w: nat, k: nat)
    requires w < Pow2(k + 1)
    ensures BitOf(w, k) <==> Pow2(k) <= w
  {
    var p := Pow2(k);
    if w < p {
      assert w / p == 0;
    } else {
      assert p <= w < 2 * p;
      assert w / p == 1 by { QuotientIsOne(w, p); }
    }
  }

  lemma QuotientIsOne(w: nat, p: nat)
    requires 0 < p <= w < 2 * p
    ensures w / p == 1
  {
    assert w == p * 1 + (w - p);
  }

  /** The priority scan for the leftmost one among 21 bits. */
  method Rank21(w: nat) returns (r: nat)
    requires w < 0x20_0000
    ensures r == RankOf(w)
  {
    hide Pow2, BitOf, BitLength;
    Pow2Of21();
    var found := false;
    r := HLL_RANKBITS + 1;
    for i := HLL_RANKBITS downto 0
      invariant if found then r == RankOf(w) else r == HLL_RANKBITS + 1 && w < Pow2(i)
    {
      if !found {
        TopBit(w, i);
      }
      if !found && BitOf(w, i) {
        BitLengthUnique(w, i + 1);
        r := HLL_RANKBITS - 1 - i + 1;
        found := true;
      }
    }
    if !found {
      BelowOne(w);
    }
  }

  lemma {:induction false} BelowOne(w: nat)
    requires w < Pow2(0)
    ensures BitLength(w) == 0
  {
  }

  // ----- the machine -----

  datatype Registers = Registers(
    mem: seq<Reg>,
    curEpoch: nat, harmonicSum: nat, zeros: nat,
    phase: nat,
    m1: bv32, m2: bv32,         // the two registered multiplications of the hash
    bkt: nat, rnk: nat,
    rword: Reg)                 // synchronous read
  {
    ghost function Memory(): Hll {
      Hll(curEpoch, mem, harmonicSum, zeros)
    }

    /** How far the packet in flight has got. */
    ghost predicate InFlight(ip: Ip)
      requires |mem| == HLL_M && bkt < HLL_M
    {
      && (phase == 1 ==> m1 == FirstMix(ip))
      && (phase == 2 ==> m2 == SecondMix(FirstMix(ip)))
      && (phase >= 3 ==> bkt == Bucket(ip) && rnk == IpRank(ip))
      && (phase == 4 ==> rword == mem[bkt])
    }

    /** The registers are the sketch's, its aggregates kept in 48 and 12 bits. */
    ghost predicate Holds(s: Hll) {
      curEpoch == s.epoch && mem == s.reg && harmonicSum == Word48(s.harmonicSum) && zeros == Word12(s.zeros)
    }

    /** What has been performed is the sequential sketch. */
    ghost predicate Sound(ins: seq<Pins>) {
      && bkt < HLL_M && phase == Busy(ins) && Holds(Replay(Linear(ins))) && |mem| == HLL_M
      && InFlight(Accepted(ins))
    }
  }

  /** What every edge does whatever the phase: the synchronous read and the tick. */
  function Latched(k: Registers, i: Pins): Registers
    requires k.bkt < |k.mem|
  {
    var n := k.(rword := k.mem[k.bkt]);
    if i.winTick then n.(curEpoch := Nibble(k.curEpoch + 1), harmonicSum := EMPTY_SUM, zeros := HLL_M) else n
  }

  /** The edges that only move the packet in flight on. */
  lemma {:induction false} MovesOn(k: Registers, n: Registers, i: Pins, ins: seq<Pins>)
    requires k.Sound(ins) && k.phase != 4 && n.bkt < HLL_M && n.phase == Busy(ins + [i])
    requires n.Memory() == Latched(k, i).Memory() && n.InFlight(Accepted(ins + [i]))
    ensures n.Sound(ins + [i])
  {
    hide Linear, Replay, Accepted, Busy, Hll.Touch, Bucket, IpRank, FirstMix, SecondMix, Word48, Word12, Tear;
    EdgeEffect(ins, i);
    WordsFit(EMPTY_SUM, HLL_M);
  }

  // One method per phase. k holds the old register values, n collects the new ones.

  /** Phase 0: the first multiplication of an accepted source. */
  method Accept(k: Registers, i: Pins, ghost ins: seq<Pins>) returns (n: Registers)
    requires k.Sound(ins) && k.phase == 0
    ensures n.Sound(ins + [i])
  {
    hide Linear, Replay, Accepted, Busy, Hll.Touch, Bucket, IpRank, FirstMix, SecondMix;
    EdgeSchedule(ins, i);
    n := Latched(k, i);
    if i.updValid {
      n := n.(m1 := FirstMix(i.srcIp), phase := 1);
    }
    MovesOn(k, n, i, ins);
  }

  /** Phase 1: the second multiplication. */
  method Mix(k: Registers, i: Pins, ghost ins: seq<Pins>) returns (n: Registers)
    requires k.Sound(ins) && k.phase == 1
    ensures n.Sound(ins + [i])
  {
    hide Linear, Replay, Accepted, Busy, Hll.Touch, Bucket, IpRank, FirstMix, SecondMix;
    EdgeSchedule(ins, i);
    n := Latched(k, i).(m2 := SecondMix(k.m1), phase := 2);
    MovesOn(k, n, i, ins);
  }

  /** Phase 2: the hash is split into bucket and rank. */
  method Split(k: Registers, i: Pins, ghost ins: seq<Pins>) returns (n: Registers)
    requires k.Sound(ins) && k.phase == 2
    ensures n.Sound(ins + [i])
  {
    hide Linear, Replay, Accepted, Busy, Hll.Touch, Bucket, IpRank, FirstMix, SecondMix, BucketOf, SuffixOf, RankOf;
    EdgeSchedule(ins, i);
    HashInSteps(Accepted(ins));
    var rnk := Rank21(SuffixOf(k.m2));
    n := Latched(k, i).(bkt := BucketOf(k.m2), rnk := rnk, phase := 3);
    MovesOn(k, n, i, ins);
  }

  /** Phase 3: read latency. */
  method Wait(k: Registers, i: Pins, ghost ins: seq<Pins>) returns (n: Registers)
    requires k.Sound(ins) && k.phase == 3
    ensures n.Sound(ins + [i])
  {
    hide Linear, Replay, Accepted, Busy, Hll.Touch, Bucket, IpRank, FirstMix, SecondMix;
    EdgeSchedule(ins, i);
    n := Latched(k, i).(phase := 4);
    MovesOn(k, n, i, ins);
  }

  /** The rank that the word read holds in the current window. */
  function Old(k: Registers): nat {
    if k.rword.epoch == k.curEpoch then k.rword.rank else 0
  }

  /** What phase 4 writes: nothing, or the register and both aggregates of the atomic packet. */
  lemma WriteIsTouch(k: Registers, ip: Ip, s: Hll)
    requires s.Valid() && k.phase == 4 && k.Holds(s) && |k.mem| == HLL_M && k.bkt < HLL_M && k.InFlight(ip)
    ensures Old(k) == s.Live(k.bkt) && k.rnk <= 22 && Old(k) <= 22 && k.bkt == Bucket(ip)
    ensures s.Raises(ip) <==> k.rnk > Old(k)
    ensures if k.rnk > Old(k) then
        k.(mem := k.mem[k.bkt := Reg(k.curEpoch, k.rnk)],
           harmonicSum := Word48(k.harmonicSum + Term(k.rnk) - Term(Old(k))),
           zeros := if Old(k) == 0 then Word12(k.zeros - 1) else k.zeros).Holds(s.Touch(ip))
      else s.Touch(ip) == s
  {
    hide Bucket, IpRank, Term, Word48, Word12;
    Word48Add(s.harmonicSum, Term(k.rnk) - Term(Old(k)));
    Word12Add(s.zeros, -1);
  }

  /** Phase 4: the register and both aggregates move; a tick on this edge clears only what they leave. */
  method Write(k: Registers, i: Pins, ghost ins: seq<Pins>) returns (n: Registers)
    requires k.Sound(ins) && k.phase == 4
    ensures n.Sound(ins + [i])
  {
    hide Linear, Replay, Accepted, Busy, Hll.Touch, Bucket, IpRank, FirstMix, SecondMix, Term, Word48, Word12, Nibble;
    ghost var ip, s := Accepted(ins), Replay(Linear(ins));
    EdgeSchedule(ins, i);
    EdgeEffect(ins, i);
    WriteIsTouch(k, ip, s);
    WordsFit(EMPTY_SUM, HLL_M);
    var was := Old(k);
    n := Latched(k, i).(phase := 0);
    if k.rnk > was {
      n := n.(mem := k.mem[k.bkt := Reg(k.curEpoch, k.rnk)],
              harmonicSum := Word48(k.harmonicSum + Term(k.rnk) - Term(was)));
      if was == 0 {
        n := n.(zeros := Word12(k.zeros - 1));
      }
    }
  }

  /** All always-blocks on one rising edge out of reset. After a history without a tear: the registers are
      those of the packet first and then the tick exactly when this edge does not tear, and when it does
      they are not those of the other order either. */
  method Edge(k: Registers, i: Pins, ghost ins: seq<Pins>) returns (n: Registers)
    requires k.Sound(ins)
    ensures n.Sound(ins + [i])
    ensures NeverTorn(Linear(ins)) ==> (n.Memory() == After(Events(Linear(ins + [i]))) <==> Undisturbed(ins, i))
    ensures NeverTorn(Linear(ins)) && !Undisturbed(ins, i) ==>
      n.Memory() != After(Events(Linear(ins)) + [Tick] + [Packet(Accepted(ins))])
  {
    SoundShape(k, ins);
    hide Registers.Sound, Linear, After, NeverTorn, Undisturbed, Events, Accepted;
    match k.phase {
      case 0 => n := Accept(k, i, ins);
      case 1 => n := Mix(k, i, ins);
      case 2 => n := Split(k, i, ins);
      case 3 => n := Wait(k, i, ins);
      case _ => n := Write(k, i, ins);
    }
    if NeverTorn(Linear(ins)) {
      ExactIffUndisturbed(n, i, ins);
    }
  }

  lemma {:induction false} ExactIffUndisturbed(n: Registers, i: Pins, ins: seq<Pins>)
    requires NeverTorn(Linear(ins)) && n.Sound(ins + [i])
    ensures n.Memory() == After(Events(Linear(ins + [i]))) <==> Undisturbed(ins, i)
    ensures !Undisturbed(ins, i) ==> n.Memory() != After(Events(Linear(ins)) + [Tick] + [Packet(Accepted(ins))])
  {
    hide After, Accepted, Busy, Linear, Replay, Tear, Hll.Touch, Hll.Raises, Word48, Word12;
    var ops, ip := Linear(ins), Accepted(ins);
    var es := Events(ops);
    UntornIsSequential(ops);
    EdgeSchedule(ins, i);
    EdgeEffect(ins, i);
    if i.winTick && Busy(ins) == 4 {
      assert Init(ops + [Both(ip)]) == ops;
      assert Events(ops + [Both(ip)]) == es + [Packet(ip)] + [Tick];
      AfterAppend(es, ip);
      TearsIff(es, ip);
      WordsFit(Tear(After(es), ip).harmonicSum, Tear(After(es), ip).zeros);
    } else {
      UntornStep(ins, i);
      UntornIsSequential(Linear(ins + [i]));
      HoldsExactly(n, Events(Linear(ins + [i])));
    }
  }

  lemma {:induction false} UntornStep(ins: seq<Pins>, i: Pins)
    requires NeverTorn(Linear(ins)) && Undisturbed(ins, i)
    ensures NeverTorn(Linear(ins + [i]))
  {
    hide Accepted, Busy, Linear, Replay, Hll.Raises;
    EdgeSchedule(ins, i);
    var ops, done := Linear(ins), Done(Busy(ins) == 4, i.winTick, Accepted(ins));
    if done != [] {
      assert Init(ops + done) == ops;
    } else {
      assert ops + done == ops;
    }
  }

  /** The aggregates of untorn runs fit their registers. */
  lemma {:induction false} HoldsExactly(k: Registers, es: seq<Event>)
    requires k.Holds(After(es))
    ensures k.Memory() == After(es)
  {
    hide After;
    AggregatesInRange(es);
    WordsFit(After(es).harmonicSum, After(es).zeros);
  }

  lemma {:induction false} SoundShape(k: Registers, ins: seq<Pins>)
    requires k.Sound(ins)
    ensures k.phase == Busy(ins) < 5 && k.Holds(Replay(Linear(ins))) && |k.mem| == HLL_M
  {
  }

  function AfterReset(): (k: Registers)
    ensures k.Sound([])
  {
    Registers(FreshRegs(), 0, EMPTY_SUM, HLL_M, 0, 0, 0, 0, 0, Reg(0, 0))
  }

  class HllCore {
    var k: Registers
    ghost var ins: seq<Pins>        // the inputs so far

    ghost predicate Valid()
      reads this
    {
      k.Sound(ins)
    }

    constructor ()
      ensures Valid() && ins == []
    {
      k := AfterReset();
      ins := [];
    }

    /** One rising clock edge out of reset. */
    method Posedge(i: Pins)
      requires Valid()
      modifies this
      ensures Valid() && ins == old(ins) + [i]
    {
      hide Registers.Sound, Undisturbed, NeverTorn;
      k := Edge(k, i, ins);
      ins := ins + [i];
    }
  }

  lemma {:induction false} UntornRun(edges: seq<Pins>)
    requires NeverDisturbed(edges)
    ensures NeverTorn(Linear(edges))
  {
    hide Undisturbed;
    if edges == [] {
    } else {
      var was := Init(edges);
      forall t | 0 <= t < |was|
        ensures Undisturbed(was[..t], was[t])
      {
        assert was[..t] == edges[..t] && Undisturbed(edges[..t], edges[t]);
      }
      UntornRun(was);
      assert was == edges[..|was|] && Undisturbed(edges[..|was|], edges[|was|]) && was + [Last(edges)] == edges;
      UntornStep(was, Last(edges));
    }
  }

  /** No edge ends a window while a register is being raised. */
  ghost predicate NeverDisturbed(edges: seq<Pins>) {
    forall t :: 0 <= t < |edges| ==> Undisturbed(edges[..t], edges[t])
  }

  /** Over any inputs from reset: the registers are the sketch after the operations one at a time, its
      aggregates in 48 and 12 bits; when no tick meets a write that raises a register, all of them are
      exactly those of the sequential sketch. */
  method RunCore(edges: seq<Pins>) returns (epoch: nat, mem: seq<Reg>, harmonicSum: nat, zeros: nat)
    ensures var s := Replay(Linear(edges));
      epoch == s.epoch && mem == s.reg && harmonicSum == Word48(s.harmonicSum) && zeros == Word12(s.zeros)
    ensures NeverDisturbed(edges) ==> Hll(epoch, mem, harmonicSum, zeros) == After(Events(Linear(edges)))
  {
    hide Registers.Sound, NeverDisturbed, Linear, Replay, After, Word48, Word12;
    var core := new HllCore();
    for t := 0 to |edges|
      invariant core.Valid() && core.ins == edges[..t]
    {
      core.Posedge(edges[t]);
      PrefixStep(edges, t);
    }
    assert edges[..|edges|] == edges;
    SoundShape(core.k, core.ins);
    epoch, mem, harmonicSum, zeros := core.k.curEpoch, core.k.mem, core.k.harmonicSum, core.k.zeros;
    if NeverDisturbed(edges) {
      UntornRun(edges);
      UntornIsSequential(Linear(edges));
      HoldsExactly(core.k, Events(Linear(edges)));
    }
  }
}
