/** The Count-Min sketch of source addresses (cms.py): five rows of epoch-tagged saturating counters. */
module CountMin {
  import opened Words
  import opened Stream

  const COLS := 4096
  const ROWS := 5
  const CMS_MAX := 0x3FFF
  const CMS_A: seq<nat> := [0x9E3779B1, 0x85EBCA77, 0xC2B2AE3D, 0x27D4EB2F, 0x165667B1]

  datatype Cell = Cell(epoch: nat, count: nat)
  datatype Sketch = Sketch(epoch: nat, cell: seq<seq<Cell>>) {
    ghost predicate Valid() {
      && epoch < 16
      && |cell| == ROWS
      && (forall j :: 0 <= j < ROWS ==> |cell[j]| == COLS)
      && (forall j, c :: 0 <= j < ROWS && 0 <= c < COLS ==> cell[j][c].count <= CMS_MAX)
    }

    /** What a cell counts in the current window: nothing when its tag is another epoch's. */
    function Live(j: nat, c: nat): nat
      requires j < |cell| && c < |cell[j]|
    {
      if cell[j][c].epoch == epoch then cell[j][c].count else 0
    }

    /** The cell a source reads in row j. */
    function At(ip: Ip, j: nat): nat
      requires |cell| == ROWS && j < ROWS && |cell[j]| == COLS
    {
      Live(j, Column(ip, j))
    }

    /** The smallest of a source's five cells. */
    function Query(ip: Ip): (m: nat)
      requires |cell| == ROWS
      requires forall j :: 0 <= j < ROWS ==> |cell[j]| == COLS
      ensures forall j :: 0 <= j < ROWS ==> m <= At(ip, j)
      ensures exists j :: 0 <= j < ROWS && m == At(ip, j)
    {
      MinOf5([At(ip, 0), At(ip, 1), At(ip, 2), At(ip, 3), At(ip, 4)])
    }

    function BumpRow(ip: Ip, j: nat): (row: seq<Cell>)
      requires Valid() && j < ROWS
    {
      cell[j][Column(ip, j) := Cell(epoch, Min(At(ip, j) + 1, CMS_MAX))]
    }

    /** One more packet of a source: row j's cell is retagged and counts one more, up to CMS_MAX. */
    function Bump(ip: Ip): (s: Sketch)
      requires Valid()
      ensures s.Valid() && s.epoch == epoch
      ensures forall j, c :: 0 <= j < ROWS && 0 <= c < COLS ==>
        s.cell[j][c] == if Column(ip, j) == c then Cell(epoch, Min(At(ip, j) + 1, CMS_MAX)) else cell[j][c]
    {
      Sketch(epoch, seq(ROWS, j requires 0 <= j < ROWS => BumpRow(ip, j)))
    }

    function Tick(): Sketch {
      Sketch(Nibble(epoch + 1), cell)
    }

    /** Every cell reads zero. */
    ghost predicate Clean()
      requires Valid()
    {
      forall j, c :: 0 <= j < ROWS && 0 <= c < COLS ==> Live(j, c) == 0
    }
  }

  function Column(ip: Ip, j: nat): (c: nat)
    requires j < ROWS
    ensures c < COLS
  {
    MulShift(ip, CMS_A[j], 0x10_0000)
  }

  /** Row j's column is the top 12 bits of the low 32 of the source times the row's own constant. */
  lemma ColumnSplits(ip: Ip, j: nat) returns (high: nat, low: nat)
    requires j < ROWS
    ensures low < 0x10_0000 && Column(ip, j) < 4096
    ensures j == 0 ==> ip * 0x9E3779B1 == high * 0x1_0000_0000 + (Column(ip, 0) * 0x10_0000 + low)
    ensures j == 1 ==> ip * 0x85EBCA77 == high * 0x1_0000_0000 + (Column(ip, 1) * 0x10_0000 + low)
    ensures j == 2 ==> ip * 0xC2B2AE3D == high * 0x1_0000_0000 + (Column(ip, 2) * 0x10_0000 + low)
    ensures j == 3 ==> ip * 0x27D4EB2F == high * 0x1_0000_0000 + (Column(ip, 3) * 0x10_0000 + low)
    ensures j == 4 ==> ip * 0x165667B1 == high * 0x1_0000_0000 + (Column(ip, 4) * 0x10_0000 + low)
  {
    high, low := ProductSplits(ip, CMS_A[j], 0x10_0000);
  }

  /** No two rows hash alike: already 0.0.0.1 has five different columns. */
  lemma RowsDiffer(j: nat, k: nat)
    requires j < k < ROWS
    ensures Column(1, j) != Column(1, k)
  {
    assert Column(1, 0) == 0x9E3 && Column(1, 1) == 0x85E && Column(1, 2) == 0xC2B && Column(1, 3) == 0x27D;
    assert Column(1, 4) == 0x165;
  }

  function FreshRow(): (row: seq<Cell>)
    ensures |row| == COLS && forall c :: 0 <= c < COLS ==> row[c] == Cell(0, 0)
  {
    seq(COLS, _ => Cell(0, 0))
  }

  function Fresh(): (s: Sketch)
    ensures s.Valid() && s.Clean()
  {
    Sketch(0, seq(ROWS, _ => FreshRow()))
  }

  class CountMin {
    var epoch: nat
    var cell: seq<seq<Cell>>

    ghost function State(): Sketch
      reads this
    {
      Sketch(epoch, cell)
    }

    ghost predicate Valid()
      reads this
    {
      State().Valid()
    }

    constructor ()
      ensures State() == Fresh() && Valid()
    {
      epoch := 0;
      cell := seq(ROWS, _ => seq(COLS, _ => Cell(0, 0)));
    }

    function Count(j: nat, c: nat): (v: nat)
      requires Valid() && j < ROWS && c < COLS
      reads this
      ensures v == State().Live(j, c)
    {
      var Cell(e, v) := cell[j][c];
      if e == epoch then v else 0
    }

    method Update(ip: Ip)
      requires Valid()
      modifies this
      ensures Valid() && State() == old(State()).Bump(ip)
    {
      ghost var was := State();
      ghost var target := was.Bump(ip);
      for j := 0 to ROWS
        invariant Valid() && epoch == was.epoch
        invariant forall i :: 0 <= i < j ==> cell[i] == target.cell[i]
        invariant forall i :: j <= i < ROWS ==> cell[i] == was.cell[i]
      {
        var c := Column(ip, j);
        var v := Count(j, c);
        cell := cell[j := cell[j][c := Cell(epoch, Min(v + 1, CMS_MAX))]];
      }
      assert cell == target.cell;
    }

    function PointQuery(ip: Ip): (m: nat)
      requires Valid()
      reads this
      ensures m == State().Query(ip)
    {
      var v := seq(ROWS, j requires 0 <= j < ROWS reads this requires Valid() => Count(j, Column(ip, j)));
      assert forall j :: 0 <= j < ROWS ==> v[j] == State().At(ip, j);
      MinOf5(v)
    }

    method WindowTick()
      requires Valid()
      modifies this
      ensures Valid() && State() == old(State()).Tick()
    {
      epoch := Nibble(epoch + 1);
    }
  }

  function MinOf5(v: seq<nat>): (m: nat)
    requires |v| == 5
    ensures m in v && forall i :: 0 <= i < 5 ==> m <= v[i]
  {
    Min(Min(Min(v[0], v[1]), Min(v[2], v[3])), v[4])
  }

  lemma BumpCounts(s: Sketch, ip: Ip, j: nat, c: nat)
    requires s.Valid() && j < ROWS && c < COLS
    ensures s.Bump(ip).Live(j, c) == if Column(ip, j) == c then Min(s.Live(j, c) + 1, CMS_MAX) else s.Live(j, c)
  {
  }

  // ----- whole runs -----

  /** The sketch after a run of packets and ticks. */
  ghost function After(es: seq<Event>): (s: Sketch)
    ensures s.Valid()
  {
    if es == [] then Fresh()
    else match Last(es)
      case Packet(ip) => After(Init(es)).Bump(ip)
      case Tick => After(Init(es)).Tick()
  }

  /** How many packets of h land on cell (j, c). */
  function Hits(h: seq<Ip>, j: nat, c: nat): nat
    requires j < ROWS
  {
    if h == [] then 0 else Hits(Init(h), j, c) + if Column(Last(h), j) == c then 1 else 0
  }

  /** In every window, clean or not, a cell reads what it read at the window's start plus its hits, capped. */
  lemma {:induction false} CellCounts(es: seq<Event>, j: nat, c: nat)
    requires j < ROWS && c < COLS
    ensures After(es).Live(j, c) == Min(After(Start(es)).Live(j, c) + Hits(Window(es), j, c), CMS_MAX)
  {
    hide Column, Sketch.Bump, Sketch.Tick, Fresh;
    if es == [] {
    } else if Last(es).Packet? {
      CellCounts(Init(es), j, c);
      BumpCounts(After(Init(es)), Last(es).src, j, c);
      var h := Window(Init(es));
      assert Window(es) == h + [Last(es).src] && Init(Window(es)) == h;
    }
  }

  lemma {:induction false} HitsCoverTimes(h: seq<Ip>, ip: Ip, j: nat)
    requires j < ROWS
    ensures Hits(h, j, Column(ip, j)) >= Times(h, ip)
  {
    if h == [] {
    } else {
      HitsCoverTimes(Init(h), ip, j);
      assert h == Init(h) + [Last(h)];
      TimesAppend(Init(h), Last(h), ip);
    }
  }

  lemma {:induction false} CellNeverBelow(es: seq<Event>, ip: Ip, j: nat)
    requires j < ROWS
    ensures After(es).At(ip, j) >= Min(Times(Window(es), ip), CMS_MAX)
  {
    hide After, Hits, Times, Column;
    CellCounts(es, j, Column(ip, j));
    HitsCoverTimes(Window(es), ip, j);
  }

  /** The estimate never falls below the source's true count (up to saturation), even when epochs wrap. */
  lemma {:induction false} NeverUnderestimates(es: seq<Event>, ip: Ip)
    ensures After(es).Query(ip) >= Min(Times(Window(es), ip), CMS_MAX)
  {
    var s := After(es);
    var j :| 0 <= j < ROWS && s.Query(ip) == s.At(ip, j);
    CellNeverBelow(es, ip, j);
  }

  /** In a clean window every cell counts exactly the packets that hash to it, capped. */
  lemma {:induction false} CleanWindowIsExact(es: seq<Event>, j: nat, c: nat)
    requires After(Start(es)).Clean()
    requires j < ROWS && c < COLS
    ensures After(es).Live(j, c) == Min(Hits(Window(es), j, c), CMS_MAX)
  {
    CellCounts(es, j, c);
  }

  /** The index of the window in which cell (j, c) was last written, -1 when never. */
  function LastWrite(es: seq<Event>, j: nat, c: nat): int
    requires j < ROWS
  {
    if es == [] then -1
    else if Last(es).Packet? && Column(Last(es).src, j) == c then Ticks(es)
    else LastWrite(Init(es), j, c)
  }

  lemma {:induction false} TagIsLastWrite(es: seq<Event>, j: nat, c: nat)
    requires j < ROWS && c < COLS
    ensures After(es).epoch == Nibble(Ticks(es))
    ensures -1 <= LastWrite(es, j, c) <= Ticks(es)
    ensures var t := LastWrite(es, j, c);
      if t < 0 then After(es).cell[j][c] == Cell(0, 0)
      else After(es).cell[j][c].epoch == Nibble(t) && After(es).cell[j][c].count > 0
  {
    assert Nibble(0) == 0;
    hide Nibble;
    if es == [] {
    } else {
      NibbleNext(Ticks(Init(es)));
      TagIsLastWrite(Init(es), j, c);
    }
  }

  /** The next window does not reuse the number of the window that last wrote the cell. */
  predicate Retired(es: seq<Event>, j: nat, c: nat)
    requires j < ROWS
  {
    LastWrite(es, j, c) < 0 || !Reuses(Ticks(es) + 1, LastWrite(es, j, c))
  }

  /** The 4-bit epoch wraps, so a tick resets exactly the cells so retired: any other is live again. */
  lemma {:induction false} TickResetsCellIff(es: seq<Event>, j: nat, c: nat)
    requires j < ROWS && c < COLS
    ensures After(es + [Tick]).Live(j, c) == 0 <==> Retired(es, j, c)
  {
    hide Nibble, Reuses, LastWrite;
    TagIsLastWrite(es, j, c);
    NibbleNext(Ticks(es));
    NibbleEq(Ticks(es) + 1, LastWrite(es, j, c));
    assert Init(es + [Tick]) == es;
  }

  lemma {:induction false} NextWindowIsCleanIff(es: seq<Event>)
    ensures After(es + [Tick]).Clean() <==>
      forall j, c :: 0 <= j < ROWS && 0 <= c < COLS ==> Retired(es, j, c)
  {
    var s := After(es + [Tick]);
    forall j, c | 0 <= j < ROWS && 0 <= c < COLS
      ensures s.Live(j, c) == 0 <==> Retired(es, j, c)
    {
      TickResetsCellIff(es, j, c);
    }
    hide After, Retired;
  }

  lemma {:induction false} FirstSixteenWindowsAreClean(es: seq<Event>)
    requires Ticks(es) < 16
    ensures After(Start(es)).Clean()
    decreases |es|
  {
    assert After([]) == Fresh();
    hide After, Reuses, LastWrite;
    if es == [] {
    } else if Last(es).Tick? {
      var was := Init(es);
      assert was + [Tick] == es && Ticks(es) == Ticks(was) + 1;
      forall j, c | 0 <= j < ROWS && 0 <= c < COLS
        ensures Retired(was, j, c)
      {
        TagIsLastWrite(was, j, c);
        if LastWrite(was, j, c) >= 0 {
          TooSoonToReuse(Ticks(was) + 1, LastWrite(was, j, c));
        }
      }
      NextWindowIsCleanIff(was);
    } else {
      FirstSixteenWindowsAreClean(Init(es));
    }
  }

  /** n ticks without a packet. */
  function Quiet(n: nat): (es: seq<Event>)
    ensures |es| == n && forall i :: 0 <= i < n ==> es[i] == Tick
  {
    seq(n, _ => Tick)
  }

  /** One packet and sixteen ticks: the reset that the window promises did not happen. */
  lemma StaleCountReturns(ip: Ip)
    ensures After([Packet(ip)] + Quiet(16)).Query(ip) == 1
  {
    var es := [Packet(ip)] + Quiet(15);
    assert es + [Tick] == [Packet(ip)] + Quiet(16);
    var s := After(es + [Tick]);
    forall j | 0 <= j < ROWS
      ensures s.At(ip, j) == 1
    {
      RunOfTicks(ip, 16, j);
    }
  }

  lemma {:induction false} RunOfTicks(ip: Ip, n: nat, j: nat)
    requires j < ROWS
    ensures var s := After([Packet(ip)] + Quiet(n));
      s.epoch == Nibble(n) && s.cell[j][Column(ip, j)] == Cell(0, 1)
  {
    var es := [Packet(ip)] + Quiet(n);
    if n == 0 {
      assert Init(es) == [];
    } else {
      NibbleNext(n - 1);
      RunOfTicks(ip, n - 1, j);
      assert Init(es) == [Packet(ip)] + Quiet(n - 1);
    }
  }
}
