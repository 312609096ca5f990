/** The SPI slave (fpga/src/spi_slave_rx.v) after its input synchronisers, and the echo register
    around it (fpga/src/echo_top.v). */
module SpiSlave {
  import opened Stream

  const FRAME_BITS := 256

  type Bits = seq<bool>
  type Frame = f: Bits | |f| == FRAME_BITS witness Zeros()

  /** The synchronised link on one clock edge; csN is low while the slave is selected. */
  datatype Level = Level(sclk: bool, csN: bool, mosi: bool)

  function Zeros(): (z: Bits)
    ensures |z| == FRAME_BITS && forall i :: 0 <= i < FRAME_BITS ==> !z[i]
  {
    seq(FRAME_BITS, _ => false)
  }

  // ----- what the levels amount to; the link is idle before the first edge -----

  predicate PrevSclk(ls: seq<Level>) {
    ls != [] && Last(ls).sclk
  }

  predicate Active(ls: seq<Level>) {
    ls != [] && !Last(ls).csN
  }

  predicate Rises(ls: seq<Level>, l: Level) {
    l.sclk && !PrevSclk(ls)
  }

  predicate Selects(ls: seq<Level>, l: Level) {
    !l.csN && !Active(ls)
  }

  /** The bits of each transfer, one list per selection: those on the data line at the clock's rises. */
  function Sent(ls: seq<Level>): seq<Bits> {
    if ls == [] then []
    else
      var l, before := Last(ls), Sent(Init(ls));
      var sampled := if Rises(Init(ls), l) then [l.mosi] else [];
      if l.csN then before
      else if Selects(Init(ls), l) || before == [] then before + [sampled]
      else Init(before) + [Last(before) + sampled]
  }

  /** The bits sampled since the slave was selected. */
  function Sampled(ls: seq<Level>): Bits {
    if Active(ls) && Sent(ls) != [] then Last(Sent(ls)) else []
  }

  /** How many of n bits belong to a frame not yet complete. */
  function Partial(n: nat): (m: nat)
    ensures m < FRAME_BITS
  {
    n % FRAME_BITS
  }

  /** The last edge sampled the last bit of a frame. */
  predicate Completes(ls: seq<Level>) {
    Active(ls) && Rises(Init(ls), Last(ls)) && Partial(|Sampled(ls)|) == 0
  }

  /** The last 256 bits of b, most significant first. */
  function LastFrame(b: Bits): Frame
    requires |b| >= FRAME_BITS
  {
    b[|b| - FRAME_BITS..]
  }

  /** What one edge does to the transfers. */
  lemma {:induction false} SentStep(ls: seq<Level>, l: Level)
    ensures var before, s := Sent(ls), if Rises(ls, l) then [l.mosi] else [];
      Sent(ls + [l]) == if l.csN then before
        else if Selects(ls, l) || before == [] then before + [s]
        else Init(before) + [Last(before) + s]
  {
    assert Init(ls + [l]) == ls;
  }

  lemma {:induction false} ActiveHasSent(ls: seq<Level>)
    ensures Active(ls) ==> Sent(ls) != []
  {
  }

  lemma {:induction false} EdgeSamples(ls: seq<Level>, l: Level)
    ensures Sampled(ls + [l]) ==
      if l.csN then [] else Sampled(ls) + if Rises(ls, l) then [l.mosi] else []
    ensures Completes(ls + [l]) <==> !l.csN && Rises(ls, l) && Partial(|Sampled(ls + [l])|) == 0
    ensures Active(ls) ==> Sent(ls) != []
  {
    SentStep(ls, l);
    ActiveHasSent(ls);
    ActiveHasSent(ls + [l]);
    hide Partial, Sent;
    assert Init(ls + [l]) == ls;
  }

  // ----- the machine -----

  datatype Registers = Registers(
    sclkQ: bool, csQ: bool,
    bitCnt: nat, byteCnt: nat,
    rxSr: Frame, txSr: Frame, miso: bool,
    rxFrame: Frame, rxFrameValid: bool)
  {
    /** The counters count the sampled bits, the receive register ends with them, and the transmit
        register is the latched frame less the bits already shifted out. */
    ghost predicate Sound(ls: seq<Level>, latched: Frame, falls: nat) {
      && sclkQ == PrevSclk(ls) && csQ == !Active(ls)
      && bitCnt < 8 && byteCnt < 32 && bitCnt + 8 * byteCnt == Partial(|Sampled(ls)|)
      && EndsWith(rxSr, Sampled(ls))
      && rxFrameValid == Completes(ls)
      && (rxFrameValid ==> |Sampled(ls)| >= FRAME_BITS && rxFrame == LastFrame(Sampled(ls)))
      && (Active(ls) ==> IsShifted(txSr, latched, falls) && miso == BitAt(latched, falls))
      && (!Active(ls) ==> !miso)
    }
  }

  function BitAt(f: Frame, k: nat): bool {
    k < FRAME_BITS && f[k]
  }

  /** The i-th bit of b counted from its end. */
  function FromEnd(b: Bits, i: nat): bool
    requires 1 <= i <= |b|
  {
    b[|b| - i]
  }

  ghost predicate EndsWith(sr: Frame, b: Bits) {
    forall i :: 1 <= i <= FRAME_BITS && i <= |b| ==> FromEnd(sr, i) == FromEnd(b, i)
  }

  ghost predicate IsShifted(sr: Frame, f: Frame, n: nat) {
    forall i :: 0 <= i < FRAME_BITS ==> sr[i] == BitAt(f, n + i)
  }

  lemma ShiftIn(sr: Frame, b: Bits, x: bool)
    requires EndsWith(sr, b)
    ensures EndsWith(sr[1..] + [x], b + [x])
    ensures |b| + 1 >= FRAME_BITS ==> sr[1..] + [x] == LastFrame(b + [x])
  {
    var t, b' := sr[1..] + [x], b + [x];
    forall i | 1 <= i <= FRAME_BITS && i <= |b'|
      ensures FromEnd(t, i) == FromEnd(b', i)
    {
      if i > 1 {
        assert FromEnd(sr, i - 1) == FromEnd(b, i - 1);
      }
    }
    if |b'| >= FRAME_BITS {
      forall i | 0 <= i < FRAME_BITS
        ensures t[i] == LastFrame(b')[i]
      {
        assert FromEnd(t, FRAME_BITS - i) == FromEnd(b', FRAME_BITS - i);
      }
    }
  }

  lemma EndsWithNothing(sr: Frame)
    ensures EndsWith(sr, [])
  {
  }

  lemma CountStep(bitCnt: nat, byteCnt: nat, n: nat)
    requires bitCnt < 8 && byteCnt < 32 && bitCnt + 8 * byteCnt == Partial(n)
    ensures Partial(0) == 0 && (Partial(n + 1) == 0 ==> n + 1 >= FRAME_BITS)
    ensures Partial(n + 1) == if bitCnt < 7 then bitCnt + 1 + 8 * byteCnt
      else if byteCnt < 31 then 8 * (byteCnt + 1) else 0
  {
  }

  /** The frame that the transfer in progress returns: what was offered at its selection. */
  function LatchedAfter(ls: seq<Level>, l: Level, txFrame: Frame, latched: Frame): Frame {
    if Selects(ls, l) then txFrame else latched
  }

  /** The falling clock edges since the selection. */
  function FallsAfter(ls: seq<Level>, l: Level, falls: nat): nat {
    if Selects(ls, l) then 0 else if !l.csN && !l.sclk && PrevSclk(ls) then falls + 1 else falls
  }

  /** One clock edge: every register is computed from the old values in k. */
  method Posedge(k: Registers, l: Level, txFrame: Frame, ghost ls: seq<Level>, ghost latched: Frame, ghost falls: nat)
    returns (n: Registers)
    requires k.Sound(ls, latched, falls)
    ensures n.Sound(ls + [l], LatchedAfter(ls, l, txFrame, latched), FallsAfter(ls, l, falls))
  {
    var sclkRise, sclkFall := l.sclk && !k.sclkQ, !l.sclk && k.sclkQ;
    var csActive, csFall := !l.csN, !l.csN && k.csQ;
    n := Receive(k.(sclkQ := l.sclk, csQ := l.csN), l, csActive, sclkRise, ls);
    n := Transmit(n, txFrame, csActive, csFall, sclkFall, latched, falls);
  }

  /** The receive process: sample on the rising edge, counters cleared while not selected. */
  method Receive(k: Registers, l: Level, csActive: bool, sclkRise: bool, ghost ls: seq<Level>) returns (n: Registers)
    requires k.bitCnt < 8 && k.byteCnt < 32 && k.bitCnt + 8 * k.byteCnt == Partial(|Sampled(ls)|)
    requires EndsWith(k.rxSr, Sampled(ls))
    requires csActive == !l.csN && sclkRise == Rises(ls, l)
    ensures n.sclkQ == k.sclkQ && n.csQ == k.csQ && n.txSr == k.txSr && n.miso == k.miso
    ensures var b := Sampled(ls + [l]);
      && n.bitCnt < 8 && n.byteCnt < 32 && n.bitCnt + 8 * n.byteCnt == Partial(|b|)
      && EndsWith(n.rxSr, b)
      && n.rxFrameValid == Completes(ls + [l])
      && (n.rxFrameValid ==> |b| >= FRAME_BITS && n.rxFrame == LastFrame(b))
  {
    hide Partial, Sampled, Completes, Active, Rises, LastFrame, EndsWith;
    EdgeSamples(ls, l);
    CountStep(k.bitCnt, k.byteCnt, |Sampled(ls)|);
    n := k.(rxFrameValid := false);
    if !csActive {
      EndsWithNothing(k.rxSr);
      n := n.(bitCnt := 0, byteCnt := 0);
    } else if sclkRise {
      ShiftIn(k.rxSr, Sampled(ls), l.mosi);
      n := n.(rxSr := k.rxSr[1..] + [l.mosi]);
      if k.bitCnt == 7 {
        n := n.(bitCnt := 0);
        if k.byteCnt == 31 {
          n := n.(byteCnt := 0, rxFrame := k.rxSr[1..] + [l.mosi], rxFrameValid := true);
        } else {
          n := n.(byteCnt := k.byteCnt + 1);
        }
      } else {
        n := n.(bitCnt := k.bitCnt + 1);
      }
    } else {
      assert Sampled(ls) + [] == Sampled(ls);
    }
  }

  /** The transmit process: load at selection, shift on the falling edge, idle low. */
  method Transmit(k: Registers, txFrame: Frame, csActive: bool, csFall: bool, sclkFall: bool,
                  ghost latched: Frame, ghost falls: nat) returns (n: Registers)
    requires csFall ==> csActive
    requires csActive && !csFall ==> IsShifted(k.txSr, latched, falls) && k.miso == BitAt(latched, falls)
    ensures n.(txSr := k.txSr, miso := k.miso) == k
    ensures csFall ==> IsShifted(n.txSr, txFrame, 0) && n.miso == BitAt(txFrame, 0)
    ensures csActive && !csFall ==> var f := if sclkFall then falls + 1 else falls;
      IsShifted(n.txSr, latched, f) && n.miso == BitAt(latched, f)
    ensures !csActive ==> !n.miso
  {
    n := k;
    if csFall {
      n := n.(txSr := txFrame, miso := txFrame[0]);
    } else if csActive {
      if sclkFall {
        n := n.(txSr := k.txSr[1..] + [false], miso := k.txSr[1]);
      }
    } else {
      n := n.(miso := false);
    }
  }
}
