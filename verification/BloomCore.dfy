/** The clocked Bloom stage (fpga/src/bloom_filter.v): a 6-phase query over one memory port, with
    the other port open to writes at any time. */
module BloomCore {
  import opened Words
  import opened Stream
  import opened Bloom

  type Addr = x: int | 0 <= x < M_WORDS

  /** The inputs of one clock edge. */
  datatype Pins = Pins(src: Ip, dst: Ip, inValid: bool, wAddr: Addr, wData: Word, wEn: bool, rAddr: Addr, rEn: bool)

  // ----- the specification -----

  /** The memory after the writes of the inputs so far. */
  function Store(mem: seq<Word>, ins: seq<Pins>): (s: seq<Word>)
    requires |mem| == M_WORDS
    ensures |s| == M_WORDS
  {
    if ins == [] then mem
    else if Last(ins).wEn then Store(mem, Init(ins))[Last(ins).wAddr := Last(ins).wData]
    else Store(mem, Init(ins))
  }

  /** How many edges ago the query in flight was accepted; 0 when idle. */
  function Busy(ins: seq<Pins>): (n: nat)
    ensures n < 6 && n <= |ins|
  {
    if ins == [] then 0
    else if Busy(Init(ins)) == 0 then (if Last(ins).inValid then 1 else 0)
    else if Busy(Init(ins)) == 5 then 0
    else Busy(Init(ins)) + 1
  }

  /** The query last accepted. */
  function Accepted(ins: seq<Pins>): (Ip, Ip) {
    if ins == [] then (0, 0)
    else if Busy(Init(ins)) == 0 && Last(ins).inValid then (Last(ins).src, Last(ins).dst)
    else Accepted(Init(ins))
  }

  /** The memory that the n-th edge after the acceptance of the query in flight reads. */
  function StoreAt(mem: seq<Word>, ins: seq<Pins>, n: nat): (s: seq<Word>)
    requires |mem| == M_WORDS && n <= Busy(ins)
    ensures |s| == M_WORDS
  {
    Store(mem, ins[..|ins| - Busy(ins) + n])
  }

  /** The answer to the query that phase 5 ends: each of the four bits in the memory of its own edge. */
  function Answer(mem: seq<Word>, ins: seq<Pins>): bool
    requires |mem| == M_WORDS && Busy(ins) == 5
  {
    var (src, dst) := Accepted(ins);
    || (StoreBit(StoreAt(mem, ins, 1), H1(src)) && StoreBit(StoreAt(mem, ins, 2), H2(src)))
    || (StoreBit(StoreAt(mem, ins, 3), H1(dst)) && StoreBit(StoreAt(mem, ins, 4), H2(dst)))
  }

  /** The answers given over a run. */
  function Answers(mem: seq<Word>, ins: seq<Pins>): seq<bool>
    requires |mem| == M_WORDS
  {
    if ins == [] then []
    else if Busy(Init(ins)) == 5 then Answers(mem, Init(ins)) + [Answer(mem, Init(ins))]
    else Answers(mem, Init(ins))
  }

  lemma {:induction false} EdgeSchedule(mem: seq<Word>, ins: seq<Pins>, i: Pins)
    requires |mem| == M_WORDS
    ensures Store(mem, ins + [i]) == if i.wEn then Store(mem, ins)[i.wAddr := i.wData] else Store(mem, ins)
    ensures Busy(ins + [i]) ==
      if Busy(ins) == 0 then (if i.inValid then 1 else 0) else if Busy(ins) == 5 then 0 else Busy(ins) + 1
    ensures Accepted(ins + [i]) == if Busy(ins) == 0 && i.inValid then (i.src, i.dst) else Accepted(ins)
    ensures Answers(mem, ins + [i])
      == if Busy(ins) == 5 then Answers(mem, ins) + [Answer(mem, ins)] else Answers(mem, ins)
  {
    assert Init(ins + [i]) == ins;
  }

  /** While a query is in flight, a later edge does not change what earlier edges read; the next
      one reads the current memory. */
  lemma {:induction false} ReadsStay(mem: seq<Word>, ins: seq<Pins>, i: Pins)
    requires |mem| == M_WORDS && 0 < Busy(ins) < 5
    ensures Busy(ins + [i]) == Busy(ins) + 1
    ensures forall n :: 0 <= n <= Busy(ins) ==> StoreAt(mem, ins + [i], n) == StoreAt(mem, ins, n)
    ensures StoreAt(mem, ins, Busy(ins)) == Store(mem, ins)
  {
    EdgeSchedule(mem, ins, i);
    hide Busy, Store;
    var a := |ins| - Busy(ins);
    assert |ins + [i]| - Busy(ins + [i]) == a;
    forall n | 0 <= n <= Busy(ins)
      ensures StoreAt(mem, ins + [i], n) == StoreAt(mem, ins, n)
    {
      assert (ins + [i])[..a + n] == ins[..a + n];
    }
    assert ins[..|ins|] == ins;
  }

  // ----- the machine -----

  datatype Registers = Registers(
    mem: seq<Word>,
    addrA: nat, rdataA: Word, rData: Word,
    h1s: nat, h2s: nat, h1d: nat, h2d: nat,
    h1sWord: Word, h2sWord: Word, h1dWord: Word,
    phase: nat, bloomHit: bool, outValid: bool)
  {
    ghost predicate Hashed(q: (Ip, Ip)) {
      h1s == H1(q.0) && h2s == H2(q.0) && h1d == H1(q.1) && h2d == H2(q.1)
    }

    /** Each word register holds the word its query edge read; the address register is one step ahead. */
    ghost predicate Sound(start: seq<Word>, ins: seq<Pins>, answers: seq<bool>) {
      && |start| == M_WORDS && mem == Store(start, ins) && phase == Busy(ins)
      && addrA < M_WORDS && h1s < M_BITS && h2s < M_BITS && h1d < M_BITS && h2d < M_BITS
      && answers == Answers(start, ins)
      && (phase > 0 ==> Hashed(Accepted(ins)))
      && (phase == 1 ==> addrA == h1s / 16)
      && (phase == 2 ==> addrA == h2s / 16 && rdataA == StoreAt(start, ins, 1)[h1s / 16])
      && (phase == 3 ==> addrA == h1d / 16 && rdataA == StoreAt(start, ins, 2)[h2s / 16])
      && (phase == 4 ==> addrA == h2d / 16 && rdataA == StoreAt(start, ins, 3)[h1d / 16])
      && (phase == 5 ==> rdataA == StoreAt(start, ins, 4)[h2d / 16])
      && (phase >= 3 ==> h1sWord == StoreAt(start, ins, 1)[h1s / 16])
      && (phase >= 4 ==> h2sWord == StoreAt(start, ins, 2)[h2s / 16])
      && (phase >= 5 ==> h1dWord == StoreAt(start, ins, 3)[h1d / 16])
    }
  }

  /** What every edge does whatever the phase: port A's synchronous read and port B's write or readback. */
  function Ports(k: Registers, i: Pins): Registers
    requires |k.mem| == M_WORDS && k.addrA < M_WORDS
  {
    k.(rdataA := k.mem[k.addrA], outValid := false,
       mem := if i.wEn then k.mem[i.wAddr := i.wData] else k.mem,
       rData := if i.wEn then k.rData else if i.rEn then k.mem[i.rAddr] else k.rData)
  }

  // One method per group of phases. k holds the old register values, n collects the new ones.

  /** Phase 0: hash both addresses and start with the first bit of the source. */
  method Accept(k: Registers, i: Pins, ghost start: seq<Word>, ghost ins: seq<Pins>, ghost answers: seq<bool>)
    returns (n: Registers)
    requires k.Sound(start, ins, answers) && k.phase == 0
    ensures n.Sound(start, ins + [i], answers) && !n.outValid && n.rData == Ports(k, i).rData
  {
    EdgeSchedule(start, ins, i);
    hide Busy, Store, StoreAt, Accepted, Answers, H1, H2;
    n := Ports(k, i);
    if i.inValid {
      n := n.(h1s := H1(i.src), h2s := H2(i.src), h1d := H1(i.dst), h2d := H2(i.dst),
                addrA := H1(i.src) / 16, phase := 1);
    }
  }

  /** Phases 1 to 4: address the next word while latching the one before last. */
  method Fetch(k: Registers, i: Pins, ghost start: seq<Word>, ghost ins: seq<Pins>, ghost answers: seq<bool>)
    returns (n: Registers)
    requires k.Sound(start, ins, answers) && 0 < k.phase < 5
    ensures n.Sound(start, ins + [i], answers) && !n.outValid && n.rData == Ports(k, i).rData
  {
    EdgeSchedule(start, ins, i);
    ReadsStay(start, ins, i);
    hide Busy, Store, StoreAt, Accepted, Answers, H1, H2;
    n := Ports(k, i).(phase := k.phase + 1);
    match k.phase {
      case 1 => n := n.(addrA := k.h2s / 16);
      case 2 => n := n.(h1sWord := k.rdataA, addrA := k.h1d / 16);
      case 3 => n := n.(h2sWord := k.rdataA, addrA := k.h2d / 16);
      case _ => n := n.(h1dWord := k.rdataA);
    }
  }

  /** Phase 5: combine the four bits. */
  method Conclude(k: Registers, i: Pins, ghost start: seq<Word>, ghost ins: seq<Pins>, ghost answers: seq<bool>)
    returns (n: Registers)
    requires k.Sound(start, ins, answers) && k.phase == 5
    ensures n.Sound(start, ins + [i], answers + [n.bloomHit]) && n.outValid && n.rData == Ports(k, i).rData
  {
    EdgeSchedule(start, ins, i);
    hide Busy, Store, StoreAt, Accepted, Answers, H1, H2, BitOf;
    n := Ports(k, i).(bloomHit := (BitOf(k.h1sWord, k.h1s % 16) && BitOf(k.h2sWord, k.h2s % 16))
                               || (BitOf(k.h1dWord, k.h1d % 16) && BitOf(k.rdataA, k.h2d % 16)),
                      outValid := true, phase := 0);
  }

  /** The hits presented with out_valid, this edge's included. */
  function Shown(n: Registers, answers: seq<bool>): seq<bool> {
    if n.outValid then answers + [n.bloomHit] else answers
  }

  /** All always-blocks on one rising edge out of reset. */
  method Edge(k: Registers, i: Pins, ghost start: seq<Word>, ghost ins: seq<Pins>, ghost answers: seq<bool>)
    returns (n: Registers)
    requires k.Sound(start, ins, answers)
    ensures n.Sound(start, ins + [i], Shown(n, answers)) && (n.outValid <==> k.phase == 5)
    ensures n.rData == Ports(k, i).rData
  {
    assert k.phase < 6;
    hide Registers.Sound;
    match k.phase {
      case 0 => n := Accept(k, i, start, ins, answers);
      case 5 => n := Conclude(k, i, start, ins, answers);
      case _ => n := Fetch(k, i, start, ins, answers);
    }
  }

  function AfterReset(mem: seq<Word>): (k: Registers)
    requires |mem| == M_WORDS
    ensures k.Sound(mem, [], []) && !k.outValid && k.mem == mem && k.rData == 0
  {
    Registers(mem, 0, 0, 0, 0, 0, 0, 0, 0, 0, 0, 0, false, false)
  }

  class BloomCore {
    var k: Registers
    ghost const start: seq<Word>    // the memory at power-up
    ghost var ins: seq<Pins>        // the inputs so far
    ghost var answers: seq<bool>    // the hits presented with out_valid so far

    ghost predicate Valid()
      reads this
    {
      k.Sound(start, ins, answers)
    }

    constructor (mem: seq<Word>)
      requires |mem| == M_WORDS
      ensures Valid() && start == mem && ins == [] && answers == []
    {
      k := AfterReset(mem);
      start, ins, answers := mem, [], [];
    }

    /** One rising clock edge out of reset. */
    method Posedge(i: Pins)
      requires Valid()
      modifies this
      ensures Valid() && ins == old(ins) + [i]
      ensures answers == Shown(k, old(answers))
      ensures k.rData == if i.wEn then old(k.rData) else if i.rEn then old(k.mem)[i.rAddr] else old(k.rData)
    {
      hide Registers.Sound;
      k := Edge(k, i, start, ins, answers);
      ins, answers := ins + [i], Shown(k, answers);
    }
  }

  /** Over any inputs the core presents exactly the answers of the queries it accepted, and its
      memory is what port B wrote. */
  method RunCore(mem: seq<Word>, edges: seq<Pins>) returns (shown: seq<bool>, store: seq<Word>)
    requires |mem| == M_WORDS
    ensures shown == Answers(mem, edges) && store == Store(mem, edges)
  {
    var core := new BloomCore(mem);
    shown := [];
    hide Answers, Store, Busy;
    for t := 0 to |edges|
      invariant core.Valid() && core.start == mem && core.ins == edges[..t] && core.answers == shown
    {
      core.Posedge(edges[t]);
      PrefixStep(edges, t);
      if core.k.outValid {
        shown := shown + [core.k.bloomHit];
      }
    }
    assert edges[..|edges|] == edges;
    store := core.k.mem;
  }

  // ----- what the answer means -----

  lemma {:induction false} NoWritesSameStore(mem: seq<Word>, ins: seq<Pins>, k: nat)
    requires |mem| == M_WORDS && k <= |ins| && forall t :: k <= t < |ins| ==> !ins[t].wEn
    ensures Store(mem, ins) == Store(mem, ins[..k])
  {
    if k == |ins| {
      assert ins[..k] == ins;
    } else {
      NoWritesSameStore(mem, Init(ins), k);
      assert Init(ins)[..k] == ins[..k];
    }
  }

  /** Without a write during the query the answer is membership of the source or the destination. */
  lemma {:induction false} QuietAnswerIsMembership(mem: seq<Word>, ins: seq<Pins>)
    requires |mem| == M_WORDS && Busy(ins) == 5 && forall t :: |ins| - 4 <= t < |ins| ==> !ins[t].wEn
    ensures var (src, dst) := Accepted(ins);
      Answer(mem, ins) == (StoreMember(Store(mem, ins), src) || StoreMember(Store(mem, ins), dst))
  {
    forall n | 1 <= n <= 4
      ensures StoreAt(mem, ins, n) == Store(mem, ins)
    {
      NoWritesSameStore(mem, ins, |ins| - 5 + n);
    }
    hide Busy, Store, StoreAt, Accepted, StoreBit, H1, H2;
  }

  /** Whatever is written during the query, an address that every memory of the query holds is hit. */
  lemma {:induction false} HeldAddressIsHit(mem: seq<Word>, ins: seq<Pins>, x: Ip)
    requires |mem| == M_WORDS && Busy(ins) == 5 && (Accepted(ins).0 == x || Accepted(ins).1 == x)
    requires forall n :: 1 <= n <= 4 ==> StoreMember(StoreAt(mem, ins, n), x)
    ensures Answer(mem, ins)
  {
    hide Busy, Store, StoreAt, Accepted, StoreBit, H1, H2;
  }
}
