/** The clocked Count-Min core (fpga/src/cms.v): a 4-phase update/query machine with an
    asynchronous window tick, against the atomic sketch of module CountMin. */
module CmsCore {
  import opened Words
  import opened Stream
  import opened CountMin

  /** The inputs of one clock edge. */
  datatype Pins = Pins(srcIp: Ip, updValid: bool, winTick: bool, qIp: Ip, qValid: bool)

  /** The sketch operations that the core performs. */
  datatype Op = Upd(ip: Ip) | Qry(ip: Ip) | Advance
  datatype Answer = Updated(count: nat) | Queried(count: nat)

  // ----- the specification: which operations the inputs amount to, and what they answer -----

  /** How many edges ago the operation in flight was accepted; 0 when idle. */
  function Busy(ins: seq<Pins>): (n: nat)
    ensures n < 4
  {
    if ins == [] then 0
    else if Busy(Init(ins)) == 0 then (if Last(ins).updValid || Last(ins).qValid then 1 else 0)
    else if Busy(Init(ins)) == 3 then 0
    else Busy(Init(ins)) + 1
  }

  /** The operation last accepted: an update wins over a query on the same edge. */
  function Accepted(ins: seq<Pins>): Op {
    if ins == [] then Advance
    else if Busy(Init(ins)) == 0 && Last(ins).updValid then Upd(Last(ins).srcIp)
    else if Busy(Init(ins)) == 0 && Last(ins).qValid then Qry(Last(ins).qIp)
    else Accepted(Init(ins))
  }

  /** The operations in the order in which they take effect: an accepted one two edges after its
      acceptance, before a tick on that same edge. */
  function Linear(ins: seq<Pins>): seq<Op> {
    if ins == [] then
      []
    else
      var done := if Busy(Init(ins)) == 2 then [Accepted(Init(ins))] else [];
      var tick := if Last(ins).winTick then [Advance] else [];
      Linear(Init(ins)) + done + tick
  }

  /** The sketch after performing the operations one at a time. */
  ghost function Replay(ops: seq<Op>): (s: Sketch)
    ensures s.Valid()
  {
    if ops == [] then Fresh() else Perform(Replay(Init(ops)), Last(ops))
  }

  ghost function Perform(s: Sketch, op: Op): (t: Sketch)
    requires s.Valid()
    ensures t.Valid()
  {
    match op
    case Upd(ip) => s.Bump(ip)
    case Qry(_) => s
    case Advance => s.Tick()
  }

  /** What the operations answer, one at a time: an update answers the point query after it. */
  ghost function Answers(ops: seq<Op>): seq<Answer> {
    if ops == [] then [] else Answers(Init(ops)) + Answered(Replay(Init(ops)), Last(ops))
  }

  ghost function Answered(s: Sketch, op: Op): seq<Answer>
    requires s.Valid()
  {
    match op
    case Upd(ip) => [Updated(s.Bump(ip).Query(ip))]
    case Qry(ip) => [Queried(s.Query(ip))]
    case Advance => []
  }

  /** The answer of the operation that took effect on the last edge, if any: it is presented one edge later. */
  ghost function Awaited(ins: seq<Pins>): seq<Answer> {
    if ins != [] && Busy(Init(ins)) == 2 then Answered(Replay(Linear(Init(ins))), Accepted(Init(ins))) else []
  }

  /** What the done pulses present after the last edge. */
  ghost function Presented(ins: seq<Pins>): seq<Answer> {
    if ins == [] then [] else Awaited(Init(ins))
  }

  lemma {:induction false} AwaitedStep(ins: seq<Pins>, i: Pins)
    ensures Awaited(ins + [i]) == if Busy(ins) == 2 then Answered(Replay(Linear(ins)), Accepted(ins)) else []
    ensures Presented(ins + [i]) == Awaited(ins)
  {
    assert Init(ins + [i]) == ins;
  }

  lemma AtStart()
    ensures Busy([]) == 0 && Replay(Linear([])) == Fresh() && Awaited([]) == [] && Presented([]) == []
  {
  }

  lemma {:induction false} ReplayAppend(ops: seq<Op>, op: Op)
    ensures Replay(ops + [op]) == Perform(Replay(ops), op)
    ensures Answers(ops + [op]) == Answers(ops) + Answered(Replay(ops), op)
  {
    assert Init(ops + [op]) == ops;
  }

  lemma {:induction false} EdgeSchedule(ins: seq<Pins>, i: Pins)
    ensures Busy(ins + [i]) ==
      if Busy(ins) == 0 then (if i.updValid || i.qValid then 1 else 0) else if Busy(ins) == 3 then 0 else Busy(ins) + 1
    ensures Accepted(ins + [i]) ==
      if Busy(ins) == 0 && i.updValid then Upd(i.srcIp)
      else if Busy(ins) == 0 && i.qValid then Qry(i.qIp)
      else Accepted(ins)
    ensures var done := if Busy(ins) == 2 then [Accepted(ins)] else [];
      Linear(ins + [i]) == Linear(ins) + done + if i.winTick then [Advance] else []
  {
    assert Init(ins + [i]) == ins;
  }

  /** What one more edge does to the specification. */
  lemma {:induction false} EdgeEffect(ins: seq<Pins>, i: Pins)
    ensures var sk, op := Replay(Linear(ins)), Accepted(ins);
      var sk' := if Busy(ins) == 2 then Perform(sk, op) else sk;
      && Replay(Linear(ins + [i])) == (if i.winTick then sk'.Tick() else sk')
      && Answers(Linear(ins + [i]))
           == if Busy(ins) == 2 then Answers(Linear(ins)) + Answered(sk, op) else Answers(Linear(ins))
  {
    EdgeSchedule(ins, i);
    hide Busy, Accepted, Linear, Replay, Answers;
    var ops, op := Linear(ins), Accepted(ins);
    var ops' := if Busy(ins) == 2 then ops + [op] else ops;
    ReplayAppend(ops, op);
    ReplayAppend(ops', Advance);
    assert Linear(ins + [i]) == if i.winTick then ops' + [Advance] else ops';
  }

  // ----- the arithmetic of the five banks -----

  /** The effective count of a word read under the lazy epoch. */
  function Eff(w: Cell, curEpoch: nat): nat {
    if w.epoch == curEpoch then w.count else 0
  }

  function Inc(v: nat): nat {
    if v == CMS_MAX then CMS_MAX else v + 1
  }

  // The same operation on all five banks.

  ghost predicate Banks(mem: seq<seq<Cell>>, c: seq<nat>) {
    |mem| == |c| == ROWS && forall j :: 0 <= j < ROWS ==> c[j] < COLS && |mem[j]| == COLS
  }

  function Columns(ip: Ip): (c: seq<nat>)
    ensures |c| == ROWS && forall j :: 0 <= j < ROWS ==> c[j] == Column(ip, j)
  {
    [Column(ip, 0), Column(ip, 1), Column(ip, 2), Column(ip, 3), Column(ip, 4)]
  }

  function ReadBanks(mem: seq<seq<Cell>>, c: seq<nat>): (r: seq<Cell>)
    requires Banks(mem, c)
    ensures |r| == ROWS && forall j :: 0 <= j < ROWS ==> r[j] == mem[j][c[j]]
  {
    [mem[0][c[0]], mem[1][c[1]], mem[2][c[2]], mem[3][c[3]], mem[4][c[4]]]
  }

  function WriteBanks(mem: seq<seq<Cell>>, c: seq<nat>, epoch: nat, s: seq<nat>): (mem': seq<seq<Cell>>)
    requires Banks(mem, c) && |s| == ROWS
    ensures |mem'| == ROWS && forall j :: 0 <= j < ROWS ==> mem'[j] == mem[j][c[j] := Cell(epoch, s[j])]
  {
    [mem[0][c[0] := Cell(epoch, s[0])], mem[1][c[1] := Cell(epoch, s[1])], mem[2][c[2] := Cell(epoch, s[2])],
     mem[3][c[3] := Cell(epoch, s[3])], mem[4][c[4] := Cell(epoch, s[4])]]
  }

  function EffAll(r: seq<Cell>, epoch: nat): (e: seq<nat>)
    requires |r| == ROWS
    ensures |e| == ROWS && forall j :: 0 <= j < ROWS ==> e[j] == Eff(r[j], epoch)
  {
    [Eff(r[0], epoch), Eff(r[1], epoch), Eff(r[2], epoch), Eff(r[3], epoch), Eff(r[4], epoch)]
  }

  function IncAll(e: seq<nat>): (s: seq<nat>)
    requires |e| == ROWS
    ensures |s| == ROWS && forall j :: 0 <= j < ROWS ==> s[j] == Inc(e[j])
  {
    [Inc(e[0]), Inc(e[1]), Inc(e[2]), Inc(e[3]), Inc(e[4])]
  }

  /** Phase 2 of an update writes the banks and the scratch registers that the atomic update leaves. */
  lemma UpdateBanks(sk: Sketch, ip: Ip, s: seq<nat>, mem: seq<seq<Cell>>)
    requires sk.Valid() && |s| == |mem| == ROWS
    requires forall j :: 0 <= j < ROWS ==> s[j] == Inc(sk.At(ip, j))
    requires forall j :: 0 <= j < ROWS ==> mem[j] == sk.cell[j][Column(ip, j) := Cell(sk.epoch, s[j])]
    ensures Sketch(sk.epoch, mem) == sk.Bump(ip)
    ensures MinOf5(s) == sk.Bump(ip).Query(ip)
  {
    var t := sk.Bump(ip);
    forall j | 0 <= j < ROWS
      ensures mem[j] == t.cell[j] && t.At(ip, j) == s[j]
    {
      BumpCounts(sk, ip, j, Column(ip, j));
    }
    assert mem == t.cell;
  }

  lemma QueryBanks(sk: Sketch, ip: Ip, s: seq<nat>)
    requires sk.Valid() && |s| == ROWS
    requires forall j :: 0 <= j < ROWS ==> s[j] == sk.At(ip, j)
    ensures MinOf5(s) == sk.Query(ip)
  {
  }

  // ----- the machine's invariant -----

  /** Every register of the core; out of an edge each one is a function of the old values. */
  datatype Registers = Registers(
    mem: seq<seq<Cell>>,   // the five banks
    curEpoch: nat,
    phase: nat,
    isUpd: bool,
    c: seq<nat>,           // registered columns
    r: seq<Cell>,          // synchronous read data
    s: seq<nat>,           // phase 2 to phase 3: post-update counts or effective values
    qCount: nat, qDone: bool, updCount: nat, updDone: bool)
  {
    ghost function Memory(): Sketch {
      Sketch(curEpoch, mem)
    }

    /** The answer that phase 3 is about to present. */
    ghost function Pending(): seq<Answer>
      requires |s| == ROWS
    {
      if isUpd then [Updated(MinOf5(s))] else [Queried(MinOf5(s))]
    }

    /** The operation in flight is the one registered; the words read in phase 1 are its cells. */
    ghost predicate InFlight(op: Op)
      requires Memory().Valid() && |c| == |r| == ROWS
    {
      && !op.Advance? && isUpd == op.Upd?
      && (forall j :: 0 <= j < ROWS ==> c[j] == Column(op.ip, j))
      && (phase == 2 ==> forall j :: 0 <= j < ROWS ==> r[j] == mem[j][Column(op.ip, j)])
    }

    /** The banks are the sequential sketch, and what has been or is about to be presented are the
        sequential answers. */
    ghost predicate Sound(ins: seq<Pins>, pulses: seq<Answer>) {
      && |c| == |r| == |s| == ROWS && (forall j :: 0 <= j < ROWS ==> c[j] < COLS)
      && Memory() == Replay(Linear(ins))
      && phase == Busy(ins)
      && (phase > 0 ==> InFlight(Accepted(ins)))
      && Answers(Linear(ins)) == if phase == 3 then pulses + Pending() else pulses
    }
  }

  lemma {:induction false} SoundShape(k: Registers, ins: seq<Pins>, pulses: seq<Answer>)
    requires k.Sound(ins, pulses)
    ensures k.phase < 4 && |k.c| == |k.r| == |k.s| == ROWS && k.Memory().Valid() && Banks(k.mem, k.c)
    ensures k.phase == 2 ==> k.InFlight(Accepted(ins))
  {
  }

  /** The registers that every edge writes, whatever the phase. */
  ghost predicate Clocked(k: Registers, n: Registers, i: Pins)
    requires Banks(k.mem, k.c)
  {
    && n.r == ReadBanks(k.mem, k.c)
    && n.curEpoch == if i.winTick then Nibble(k.curEpoch + 1) else k.curEpoch
  }

  lemma IdleEdge(k: Registers, n: Registers, i: Pins, ins: seq<Pins>, pulses: seq<Answer>)
    requires k.Sound(ins, pulses) && k.phase == 0 && Banks(k.mem, k.c) && Clocked(k, n, i)
    requires n.mem == k.mem && n.s == k.s
    requires if i.updValid || i.qValid then n.phase == 1 && n.isUpd == i.updValid
        && n.c == Columns(if i.updValid then i.srcIp else i.qIp)
      else n.phase == 0 && n.c == k.c
    ensures n.Sound(ins + [i], pulses)
  {
    EdgeSchedule(ins, i);
    EdgeEffect(ins, i);
    hide Linear, Replay, Answers, Accepted, Busy, Column;
  }

  lemma ReadEdge(k: Registers, n: Registers, i: Pins, ins: seq<Pins>, pulses: seq<Answer>)
    requires k.Sound(ins, pulses) && k.phase == 1 && Banks(k.mem, k.c) && Clocked(k, n, i)
    requires n.mem == k.mem && n.s == k.s && n.phase == 2 && n.isUpd == k.isUpd && n.c == k.c
    ensures n.Sound(ins + [i], pulses)
  {
    EdgeSchedule(ins, i);
    EdgeEffect(ins, i);
    hide Linear, Replay, Answers, Accepted, Busy, Column;
  }

  lemma EffectOfWrite(k: Registers, n: Registers, op: Op)
    requires k.Memory().Valid() && |k.c| == |k.r| == ROWS && k.phase == 2 && k.InFlight(op) && Banks(k.mem, k.c)
    requires n.isUpd == k.isUpd
    requires var e := EffAll(k.r, k.curEpoch);
      if k.isUpd then n.s == IncAll(e) && n.mem == WriteBanks(k.mem, k.c, k.curEpoch, IncAll(e))
      else n.s == e && n.mem == k.mem
    ensures |n.s| == ROWS
    ensures Sketch(k.curEpoch, n.mem) == Perform(k.Memory(), op) && n.Pending() == Answered(k.Memory(), op)
  {
    hide Sketch.Bump, Sketch.Query, Column, MinOf5;
    if k.isUpd {
      UpdateBanks(k.Memory(), op.ip, n.s, n.mem);
    } else {
      QueryBanks(k.Memory(), op.ip, n.s);
    }
  }

  lemma {:induction false} EffectEdge(k: Registers, n: Registers, i: Pins, ins: seq<Pins>, pulses: seq<Answer>)
    requires k.Sound(ins, pulses) && k.phase == 2 && Banks(k.mem, k.c) && Clocked(k, n, i)
    requires n.phase == 3 && n.isUpd == k.isUpd && n.c == k.c && |n.s| == ROWS
    requires Sketch(k.curEpoch, n.mem) == Perform(k.Memory(), Accepted(ins))
    requires n.Pending() == Answered(k.Memory(), Accepted(ins))
    ensures n.Sound(ins + [i], pulses)
  {
    EdgeSchedule(ins, i);
    EdgeEffect(ins, i);
    hide Linear, Replay, Answers, Accepted, Busy, Column, Perform, Answered, MinOf5, Nibble;
  }

  /** Phase 2 is where the operation takes effect: what it writes and registers is the atomic
      operation's effect and answer. */
  lemma WriteEdge(k: Registers, n: Registers, i: Pins, ins: seq<Pins>, pulses: seq<Answer>)
    requires k.Sound(ins, pulses) && k.phase == 2 && Banks(k.mem, k.c) && Clocked(k, n, i)
    requires |k.r| == ROWS && n.phase == 3 && n.isUpd == k.isUpd && n.c == k.c
    requires var e := EffAll(k.r, k.curEpoch);
      if k.isUpd then n.s == IncAll(e) && n.mem == WriteBanks(k.mem, k.c, k.curEpoch, IncAll(e))
      else n.s == e && n.mem == k.mem
    ensures n.Sound(ins + [i], pulses)
  {
    SoundShape(k, ins, pulses);
    hide Registers.Sound, Registers.InFlight, Registers.Pending, Sketch.Valid;
    hide Accepted, Perform, Answered, Clocked, Banks, EffAll, IncAll, WriteBanks;
    EffectOfWrite(k, n, Accepted(ins));
    EffectEdge(k, n, i, ins, pulses);
  }

  lemma PresentEdge(k: Registers, n: Registers, i: Pins, ins: seq<Pins>, pulses: seq<Answer>)
    requires k.Sound(ins, pulses) && k.phase == 3 && Banks(k.mem, k.c) && Clocked(k, n, i)
    requires n.mem == k.mem && n.s == k.s && n.phase == 0 && n.c == k.c
    ensures n.Sound(ins + [i], pulses + k.Pending())
  {
    EdgeSchedule(ins, i);
    EdgeEffect(ins, i);
    hide Linear, Replay, Answers, Accepted, Busy, Column;
  }

  // ----- the machine -----

  /** What every edge does whatever the phase: the synchronous reads, the tick, the done pulses back to 0. */
  function Latched(k: Registers, i: Pins): Registers
    requires Banks(k.mem, k.c)
  {
    k.(r := ReadBanks(k.mem, k.c), qDone := false, updDone := false,
       curEpoch := if i.winTick then Nibble(k.curEpoch + 1) else k.curEpoch)
  }

  // One method per phase. k holds the old register values, n collects the new ones.

  /** Phase 0: accept an operation and register its columns. */
  method Accept(k: Registers, i: Pins, ghost ins: seq<Pins>, ghost pulses: seq<Answer>) returns (n: Registers)
    requires k.Sound(ins, pulses) && k.phase == 0 && Banks(k.mem, k.c)
    ensures n.Sound(ins + [i], pulses) && !n.updDone && !n.qDone
  {
    n := Latched(k, i);
    if i.updValid || i.qValid {
      n := n.(isUpd := i.updValid, c := Columns(if i.updValid then i.srcIp else i.qIp), phase := 1);
    }
    IdleEdge(k, n, i, ins, pulses);
  }

  /** Phase 1: read latency. */
  method Wait(k: Registers, i: Pins, ghost ins: seq<Pins>, ghost pulses: seq<Answer>) returns (n: Registers)
    requires k.Sound(ins, pulses) && k.phase == 1 && Banks(k.mem, k.c)
    ensures n.Sound(ins + [i], pulses) && !n.updDone && !n.qDone
  {
    n := Latched(k, i).(phase := 2);
    ReadEdge(k, n, i, ins, pulses);
  }

  /** Phase 2: write the banks (update only) and register the five values. */
  method ReadModifyWrite(k: Registers, i: Pins, ghost ins: seq<Pins>, ghost pulses: seq<Answer>) returns (n: Registers)
    requires k.Sound(ins, pulses) && k.phase == 2 && Banks(k.mem, k.c) && |k.r| == ROWS
    ensures n.Sound(ins + [i], pulses) && !n.updDone && !n.qDone
  {
    hide Registers.Sound;
    var e := EffAll(k.r, k.curEpoch);
    n := Latched(k, i).(phase := 3);
    if k.isUpd {
      n := n.(s := IncAll(e), mem := WriteBanks(k.mem, k.c, k.curEpoch, IncAll(e)));
    } else {
      n := n.(s := e);
    }
    WriteEdge(k, n, i, ins, pulses);
  }

  /** Phase 3: the 5-way minimum and the done pulse. */
  method Present(k: Registers, i: Pins, ghost ins: seq<Pins>, ghost pulses: seq<Answer>) returns (n: Registers)
    requires k.Sound(ins, pulses) && k.phase == 3 && Banks(k.mem, k.c) && |k.s| == ROWS
    ensures n.Sound(ins + [i], pulses + k.Pending())
    ensures if k.isUpd then n.updDone && !n.qDone && k.Pending() == [Updated(n.updCount)]
      else n.qDone && !n.updDone && k.Pending() == [Queried(n.qCount)]
  {
    hide Registers.Sound;
    n := Latched(k, i).(phase := 0);
    if k.isUpd {
      n := n.(updCount := MinOf5(k.s), updDone := true);
    } else {
      n := n.(qCount := MinOf5(k.s), qDone := true);
    }
    PresentEdge(k, n, i, ins, pulses);
  }

  /** What the registers present with a done pulse. */
  function Pulse(n: Registers): seq<Answer> {
    if n.updDone then [Updated(n.updCount)] else if n.qDone then [Queried(n.qCount)] else []
  }

  /** The values presented with a done pulse, this edge's included. */
  function Shown(n: Registers, pulses: seq<Answer>): seq<Answer> {
    pulses + Pulse(n)
  }

  /** All always-blocks on one rising edge out of reset. */
  method Edge(k: Registers, i: Pins, ghost ins: seq<Pins>, ghost pulses: seq<Answer>) returns (n: Registers)
    requires k.Sound(ins, pulses)
    ensures n.Sound(ins + [i], Shown(n, pulses))
    ensures (n.updDone <==> k.phase == 3 && k.isUpd) && (n.qDone <==> k.phase == 3 && !k.isUpd)
    ensures Pulse(n) == Presented(ins + [i])
  {
    SoundShape(k, ins, pulses);
    hide Registers.Sound, Registers.InFlight, Registers.Pending, Sketch.Valid, Banks;
    match k.phase {
      case 0 => n := Accept(k, i, ins, pulses);
      case 1 => n := Wait(k, i, ins, pulses);
      case 2 => n := ReadModifyWrite(k, i, ins, pulses);
      case _ => n := Present(k, i, ins, pulses);
    }
    assert pulses + [] == pulses;
    PulsePresents(k, n, i, ins, pulses);
  }

  function AfterReset(): (k: Registers)
    ensures k.Sound([], []) && !k.updDone && !k.qDone
  {
    Registers(Fresh().cell, 0, 0, false, [0, 0, 0, 0, 0], seq(ROWS, _ => Cell(0, 0)), [0, 0, 0, 0, 0],
              0, false, 0, false)
  }

  class CmsCore {
    var k: Registers
    ghost var ins: seq<Pins>        // the inputs so far
    ghost var pulses: seq<Answer>   // the values presented with a done pulse so far

    ghost predicate Valid()
      reads this
    {
      k.Sound(ins, pulses)
    }

    /** The core after its reset; the registers that no reset clears may hold anything. */
    constructor (isUpd: bool, c: seq<nat>, r: seq<Cell>, s: seq<nat>, updCount: nat)
      requires |c| == |r| == |s| == ROWS && forall j :: 0 <= j < ROWS ==> c[j] < COLS
      ensures Valid() && ins == [] && pulses == []
    {
      k := Registers(seq(ROWS, _ => seq(COLS, _ => Cell(0, 0))), 0, 0, isUpd, c, r, s, 0, false, updCount, false);
      ins, pulses := [], [];
    }

    /** One rising clock edge out of reset. */
    method Posedge(i: Pins)
      requires Valid()
      modifies this
      ensures Valid() && ins == old(ins) + [i]
      ensures pulses == Shown(k, old(pulses)) && !(k.updDone && k.qDone)
    {
      hide Registers.Sound;
      k := Edge(k, i, ins, pulses);
      ins, pulses := ins + [i], Shown(k, pulses);
    }
  }

  /** The done pulses of an edge present the answer awaited. */
  lemma PulsePresents(k: Registers, n: Registers, i: Pins, ins: seq<Pins>, pulses: seq<Answer>)
    requires k.Sound(ins, pulses) && n.Sound(ins + [i], Shown(n, pulses))
    requires (n.updDone <==> k.phase == 3 && k.isUpd) && (n.qDone <==> k.phase == 3 && !k.isUpd)
    ensures Pulse(n) == Presented(ins + [i])
  {
    hide Linear, Replay, Answers, Accepted, MinOf5, Column, Sketch.Bump, Sketch.Query;
    AwaitedStep(ins, i);
    EdgeEffect(ins, i);
    if k.phase == 3 {
      var was := Init(ins);
      assert ins == was + [Last(ins)];
      EdgeSchedule(was, Last(ins));
      EdgeEffect(was, Last(ins));
      assert Awaited(ins) == Answered(Replay(Linear(was)), Accepted(was));
      var all := Answers(Linear(ins));
      assert all == pulses + Pulse(n);
      assert Last(all) == Pulse(n)[0];
    }
  }

  /** shown is all the answers of the sequential run, but for one that phase 3 has yet to present. */
  ghost predicate Presents(shown: seq<Answer>, edges: seq<Pins>) {
    var all := Answers(Linear(edges));
    if Busy(edges) == 3 then all != [] && shown == Init(all) else shown == all
  }

  lemma {:induction false} SoundPresents(k: Registers, ins: seq<Pins>, pulses: seq<Answer>)
    requires k.Sound(ins, pulses)
    ensures Presents(pulses, ins)
    ensures k.Memory() == Replay(Linear(ins))
  {
  }

  /** Over any inputs from reset, the values shown with a done pulse are what the accepted
      operations answer when performed one at a time in the linear order, and the banks under the
      current epoch are the sketch that this leaves. */
  method RunCore(edges: seq<Pins>) returns (shown: seq<Answer>, epoch: nat, mem: seq<seq<Cell>>)
    ensures Presents(shown, edges)
    ensures Sketch(epoch, mem) == Replay(Linear(edges))
  {
    var core := new CmsCore(false, [0, 0, 0, 0, 0], seq(ROWS, _ => Cell(0, 0)), [0, 0, 0, 0, 0], 0);
    shown := [];
    hide Registers.Sound, Presents;
    for t := 0 to |edges|
      invariant core.Valid() && core.ins == edges[..t] && core.pulses == shown
    {
      core.Posedge(edges[t]);
      PrefixStep(edges, t);
      if core.k.updDone {
        shown := shown + [Updated(core.k.updCount)];
      } else if core.k.qDone {
        shown := shown + [Queried(core.k.qCount)];
      }
    }
    assert edges[..|edges|] == edges;
    SoundPresents(core.k, core.ins, core.pulses);
    epoch, mem := core.k.curEpoch, core.k.mem;
  }
}
