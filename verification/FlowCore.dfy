/** The clocked flow table (fpga/src/flow_table.v): a 4-phase read-modify-write machine against the
    atomic table of module FlowTable. */
module FlowCore {
  import opened Words
  import opened Stream
  import opened FlowTable

  /** The inputs of one clock edge. */
  datatype Pins = Pins(header: Header, lim: Limits, inValid: bool)

  // ----- the specification -----

  /** How many edges ago the packet in flight was accepted; 0 when idle. */
  function Busy(ins: seq<Pins>): (n: nat)
    ensures n < 4
  {
    if ins == [] then 0
    else if Busy(Init(ins)) == 0 then (if Last(ins).inValid then 1 else 0)
    else if Busy(Init(ins)) == 3 then 0
    else Busy(Init(ins)) + 1
  }

  /** The accepted packets whose update has reached the memory; one in flight is added two edges
      after its acceptance. */
  ghost function Linear(ins: seq<Pins>): seq<Header> {
    if ins == [] then []
    else if Busy(Init(ins)) == 2 then Linear(Init(ins)) + [Accepted(Init(ins))]
    else Linear(Init(ins))
  }

  /** The packet last accepted. */
  function Accepted(ins: seq<Pins>): Header {
    if ins == [] then Header(0, 0, 0, 0, 0, {}, 0, 0)
    else if Busy(Init(ins)) == 0 && Last(ins).inValid then Last(ins).header
    else Accepted(Init(ins))
  }

  /** What the atomic table reports for each packet in turn, with the thresholds of the edge on
      which the machine compares. */
  ghost function Verdicts(ins: seq<Pins>): seq<(bool, bool)> {
    if ins == [] then []
    else
      var h := Linear(Init(ins));
      if Busy(Init(ins)) == 3 && h != [] then Verdicts(Init(ins)) + [VerdictAfter(h, Last(ins).lim)]
      else Verdicts(Init(ins))
  }

  /** The low 24 bits: how a 24-bit sum is kept. */
  function Low24(x: nat): (r: nat)
    ensures r <= BYTE_MAX
  {
    x % 0x100_0000
  }

  lemma Low24Add(x: nat, y: nat)
    ensures Low24(Low24(x) + y) == Low24(x + y)
  {
  }

  /** What the machine's memory holds for a run: the atomic table's cell, but the byte total wraps
      because the comparison with the maximum is itself taken at 24 bits. */
  ghost function Stored(r: seq<Header>): Cell {
    Summary(r).(bytes := Low24(Bytes(r)))
  }

  /** The byte totals agree exactly while the run stays below 2^24 bytes, or hits the maximum again. */
  lemma {:induction false} StoredExactIff(r: seq<Header>)
    ensures Stored(r) == Summary(r) <==> Bytes(r) <= BYTE_MAX || Low24(Bytes(r)) == BYTE_MAX
  {
  }

  lemma {:induction false} BytesOfReturns(p: Header, n: nat)
    ensures Bytes(Returns(p, n)) == |Returns(p, n)| * p.size
  {
    hide Epoch;
    if n == 0 {
    } else {
      BytesOfReturns(p, n - 1);
      var r, q := Returns(p, n - 1), p.(frameCount := n - 1);
      assert Init(r + [q]) == r && Last(r + [q]) == q;
      assert (|r| + 1) * p.size == |r| * p.size + p.size;
    }
  }

  /** The byte totals do come apart, on a consecutively numbered stream: 257 packets of the largest 16-bit
      size from one source, sixteen in each round of the epoch number. */
  lemma ByteTotalsComeApart(p: Header, z: Ip) returns (h: seq<Header>)
    requires p.size == 0xFFFF && Bucket(z) != Bucket(p.src)
    ensures Numbered(h) && (forall q <- h :: q.src == p.src || q.src == z) && |Run(h, Bucket(p.src))| == 257
    ensures Stored(Run(h, Bucket(p.src))).bytes != Table(h)[Bucket(p.src)].bytes
  {
    hide Bucket, Fp, Epoch, Until;
    h := Periodic(p, z, Until(257));
    ReturnsAreOneRun(p, z, Until(257));
    UntilIsExact(p, z, 257);
    BytesOfReturns(p, Until(257));
    CellsHoldRuns(h, Bucket(p.src));
  }

  ghost function Extend(r: seq<Header>, p: Header): seq<Header> {
    if r != [] && Key(Last(r)) == Key(p) then r + [p] else [p]
  }

  lemma {:induction false} EdgeSchedule(ins: seq<Pins>, i: Pins)
    ensures Busy(ins + [i]) ==
      if Busy(ins) == 0 then (if i.inValid then 1 else 0) else if Busy(ins) == 3 then 0 else Busy(ins) + 1
    ensures Accepted(ins + [i]) == if Busy(ins) == 0 && i.inValid then i.header else Accepted(ins)
    ensures Linear(ins + [i]) == if Busy(ins) == 2 then Linear(ins) + [Accepted(ins)] else Linear(ins)
    ensures Verdicts(ins + [i]) == if Busy(ins) == 3 && Linear(ins) != []
      then Verdicts(ins) + [VerdictAfter(Linear(ins), i.lim)] else Verdicts(ins)
  {
    assert Init(ins + [i]) == ins;
  }

  // ----- the machine -----

  datatype Registers = Registers(
    mem: seq<Cell>,
    phase: nat,
    addr: nat,
    lFp: nat, lEpoch: nat, lPbit: nat, lHbit: nat, lSyn: bool, lFlags: Bitmap, lSize: nat,   // phase 0 latches
    rdata: Cell,                                                                            // synchronous read
    sPorts: Bitmap, sHosts: Bitmap, sCnt: nat,                                              // phase 2 to phase 3
    portScanHit: bool, rateHit: bool, outValid: bool)
  {
    ghost predicate Holds(p: Header) {
      && addr == Bucket(p.src) && lFp == Fp(p.src) && lEpoch == Epoch(p.frameCount)
      && lSyn == SynGate(p) && lFlags == p.tcpFlags && lSize == p.size
      && lPbit == PortBit(p.dstPort) && lHbit == HostBit(p.dst)
    }

    ghost predicate Sound(ins: seq<Pins>, verdicts: seq<(bool, bool)>) {
      && |mem| == DEPTH && addr < DEPTH && lPbit < 16 && lHbit < 16
      && (forall b :: 0 <= b < DEPTH ==> mem[b] == Stored(Run(Linear(ins), b)))
      && phase == Busy(ins)
      && (phase > 0 ==> Holds(Accepted(ins)))
      && (phase == 2 ==> rdata == mem[addr])
      && (phase == 3 ==> Linear(ins) != [] && Last(Linear(ins)) == Accepted(ins))
      && (phase == 3 ==> sPorts == mem[addr].ports && sHosts == mem[addr].hosts && sCnt == mem[addr].pkts)
      && verdicts == Verdicts(ins)
    }
  }

  /** Phase 2's unpacked word, blanked on a fingerprint or epoch mismatch, after one packet. */
  function Updated(k: Registers): Cell
    requires k.lPbit < 16 && k.lHbit < 16
  {
    var e := if k.rdata.fp != k.lFp || k.rdata.epoch != k.lEpoch then Blank(k.lEpoch, k.lFp) else k.rdata;
    var sum := Low24(e.bytes + k.lSize);
    Cell(k.lFp, k.lEpoch,
         if e.pkts == RATE_MAX then RATE_MAX else e.pkts + 1,
         if sum > BYTE_MAX then BYTE_MAX else sum,
         if k.lSyn then (if e.syns == SYN_MAX then SYN_MAX else e.syns + 1) else e.syns,
         if k.lSyn then e.ports + {k.lPbit} else e.ports,
         if k.lSyn then e.hosts + {k.lHbit} else e.hosts,
         e.flags + k.lFlags)
  }

  lemma UpdatedIsAtomic(k: Registers, r: seq<Header>, p: Header)
    requires k.lPbit < 16 && k.lHbit < 16 && k.Holds(p) && k.rdata == Stored(r)
    ensures Updated(k) == Stored(Extend(r, p))
  {
    hide Bucket, Fp, Epoch, PortBit, HostBit, SynGate, Ports, Hosts, AllFlags, Low24, Bytes, Syns;
    AbsorbExtends(r, p);
    Low24Add(Bytes(r), p.size);
    BytesExtend(r, p);
    assert Summary(r).pkts <= RATE_MAX && Summary(r).syns <= SYN_MAX;
  }

  lemma {:induction false} BytesExtend(r: seq<Header>, p: Header)
    ensures Bytes(r + [p]) == Bytes(r) + p.size && Bytes([p]) == p.size && Bytes([]) == 0
    ensures Low24(0) == 0
  {
    assert Init(r + [p]) == r && Init([p]) == [];
  }

  /** What every edge does whatever the phase: the synchronous read, out_valid back to 0. */
  function Latched(k: Registers): Registers
    requires k.addr < |k.mem|
  {
    k.(rdata := k.mem[k.addr], outValid := false)
  }

  lemma {:induction false} RunStep(h: seq<Header>, p: Header, b: nat)
    ensures Run(h + [p], b) == if Bucket(p.src) == b then Extend(Run(h, b), p) else Run(h, b)
  {
    assert Init(h + [p]) == h;
  }

  // One method per phase. k holds the old register values, n collects the new ones.

  /** Phase 0: hash and latch the packet. */
  method Accept(k: Registers, i: Pins, ghost ins: seq<Pins>, ghost verdicts: seq<(bool, bool)>) returns (n: Registers)
    requires k.Sound(ins, verdicts) && k.phase == 0
    ensures n.Sound(ins + [i], verdicts) && !n.outValid
  {
    n := Latched(k);
    if i.inValid {
      var p := i.header;
      n := n.(addr := Bucket(p.src), lFp := Fp(p.src), lPbit := PortBit(p.dstPort), lHbit := HostBit(p.dst),
              lEpoch := Epoch(p.frameCount), lSyn := SynGate(p), lFlags := p.tcpFlags, lSize := p.size, phase := 1);
    }
    EdgeSchedule(ins, i);
    hide Bucket, Fp, Epoch, PortBit, HostBit, SynGate, Linear, Accepted, Busy, Verdicts, Run, Stored;
  }

  /** Phase 1: read latency. */
  method Wait(k: Registers, i: Pins, ghost ins: seq<Pins>, ghost verdicts: seq<(bool, bool)>) returns (n: Registers)
    requires k.Sound(ins, verdicts) && k.phase == 1
    ensures n.Sound(ins + [i], verdicts) && !n.outValid
  {
    n := Latched(k).(phase := 2);
    EdgeSchedule(ins, i);
    hide Bucket, Fp, Epoch, PortBit, HostBit, SynGate, Linear, Accepted, Busy, Verdicts, Run, Stored;
  }

  /** Phase 2: update the word read and write it back; this is where the packet takes effect. */
  method ReadModifyWrite(k: Registers, i: Pins, ghost ins: seq<Pins>, ghost verdicts: seq<(bool, bool)>)
    returns (n: Registers)
    requires k.Sound(ins, verdicts) && k.phase == 2
    ensures n.Sound(ins + [i], verdicts) && !n.outValid
  {
    hide Bucket, Fp, Epoch, PortBit, HostBit, SynGate, Linear, Accepted, Busy, Verdicts, Run, Stored, Updated, Extend;
    var u := Updated(k);
    n := Latched(k).(mem := k.mem[k.addr := u], sPorts := u.ports, sHosts := u.hosts, sCnt := u.pkts, phase := 3);
    EdgeSchedule(ins, i);
    ghost var h, p := Linear(ins), Accepted(ins);
    UpdatedIsAtomic(k, Run(h, k.addr), p);
    forall b | 0 <= b < DEPTH
      ensures n.mem[b] == Stored(Run(h + [p], b))
    {
      RunStep(h, p, b);
    }
  }

  /** Phase 3: the population counts and comparisons, with the thresholds of this edge. */
  method Present(k: Registers, i: Pins, ghost ins: seq<Pins>, ghost verdicts: seq<(bool, bool)>) returns (n: Registers)
    requires k.Sound(ins, verdicts) && k.phase == 3
    ensures n.Sound(ins + [i], verdicts + [(n.portScanHit, n.rateHit)]) && n.outValid
  {
    EdgeSchedule(ins, i);
    CellsHoldRuns(Linear(ins), k.addr);
    hide Bucket, Fp, Epoch, PortBit, HostBit, SynGate, Linear, Accepted, Busy, Verdicts, Run, Summary, Table;
    n := Latched(k).(portScanHit := |k.sPorts| >= i.lim.port || |k.sHosts| >= i.lim.host,
                     rateHit := k.sCnt >= i.lim.rate, outValid := true, phase := 0);
  }

  /** The pairs presented with out_valid, this edge's included. */
  function Shown(n: Registers, verdicts: seq<(bool, bool)>): seq<(bool, bool)> {
    if n.outValid then verdicts + [(n.portScanHit, n.rateHit)] else verdicts
  }

  /** All always-blocks on one rising edge out of reset. */
  method Edge(k: Registers, i: Pins, ghost ins: seq<Pins>, ghost verdicts: seq<(bool, bool)>) returns (n: Registers)
    requires k.Sound(ins, verdicts)
    ensures n.Sound(ins + [i], Shown(n, verdicts)) && (n.outValid <==> k.phase == 3)
  {
    assert k.phase < 4;
    hide Registers.Sound;
    match k.phase {
      case 0 => n := Accept(k, i, ins, verdicts);
      case 1 => n := Wait(k, i, ins, verdicts);
      case 2 => n := ReadModifyWrite(k, i, ins, verdicts);
      case _ => n := Present(k, i, ins, verdicts);
    }
  }

  function AfterReset(): (k: Registers)
    ensures k.Sound([], []) && !k.outValid
  {
    Registers(seq(DEPTH, _ => Blank(0, 0)), 0, 0, 0, 0, 0, 0, false, {}, 0, Blank(0, 0), {}, {}, 0, false, false, false)
  }

  class FlowCore {
    var k: Registers
    ghost var ins: seq<Pins>                  // the inputs so far
    ghost var verdicts: seq<(bool, bool)>     // the pairs presented with out_valid so far

    ghost predicate Valid()
      reads this
    {
      k.Sound(ins, verdicts)
    }

    constructor ()
      ensures Valid() && ins == [] && verdicts == []
    {
      k := AfterReset();
      ins, verdicts := [], [];
    }

    /** One rising clock edge out of reset. */
    method Posedge(i: Pins)
      requires Valid()
      modifies this
      ensures Valid() && ins == old(ins) + [i]
      ensures verdicts == Shown(k, old(verdicts))
    {
      hide Registers.Sound;
      k := Edge(k, i, ins, verdicts);
      ins, verdicts := ins + [i], Shown(k, verdicts);
    }
  }

  /** Over any input pattern from reset, what is presented with out_valid is what the atomic table
      reports for the accepted packets in turn, and each memory word holds its bucket's run. */
  method RunCore(edges: seq<Pins>) returns (shown: seq<(bool, bool)>, mem: seq<Cell>)
    ensures shown == Verdicts(edges)
    ensures |mem| == DEPTH && forall b :: 0 <= b < DEPTH ==> mem[b] == Stored(Run(Linear(edges), b))
  {
    var core := new FlowCore();
    shown := [];
    hide Verdicts, Linear, Run, Stored;
    for t := 0 to |edges|
      invariant core.Valid() && core.ins == edges[..t] && core.verdicts == shown
    {
      core.Posedge(edges[t]);
      PrefixStep(edges, t);
      if core.k.outValid {
        shown := shown + [(core.k.portScanHit, core.k.rateHit)];
      }
    }
    assert edges[..|edges|] == edges;
    mem := core.k.mem;
  }
}
