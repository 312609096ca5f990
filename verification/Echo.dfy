/** The frame echo (fpga/src/echo_top.v) seen from the master, and the error accounting of the
    clock ramp (ber.py). */
module Echo {
  import opened Words
  import opened Stream
  import opened SpiSlave
  import opened Master

  /** How many of n bits make up complete frames. */
  function Whole(n: nat): (w: nat)
    ensures w <= n && (w == 0 || w >= FRAME_BITS)
  {
    n / FRAME_BITS * FRAME_BITS
  }

  lemma WholeStep(n: nat)
    ensures Whole(n + 1) == if Partial(n + 1) == 0 then n + 1 else Whole(n)
    ensures (n + 1) / FRAME_BITS == n / FRAME_BITS + if Partial(n + 1) == 0 then 1 else 0
    ensures Whole(0) == 0 && Whole(1) == 0
  {
  }

  /** The last complete frame of a sequence of transfers; zeros before the first. */
  function LastComplete(sent: seq<Bits>): Frame {
    if sent == [] then Zeros()
    else
      var t := Last(sent);
      if Whole(|t|) > 0 then LastFrame(t[..Whole(|t|)]) else LastComplete(Init(sent))
  }

  function FrameCount(sent: seq<Bits>): nat {
    if sent == [] then 0 else FrameCount(Init(sent)) + |Last(sent)| / FRAME_BITS
  }

  lemma {:induction false} NewTransfer(before: seq<Bits>, s: Bits)
    requires |s| <= 1
    ensures LastComplete(before + [s]) == LastComplete(before) && FrameCount(before + [s]) == FrameCount(before)
  {
    WholeStep(0);
    assert Init(before + [s]) == before;
  }

  lemma LongerTransfer(before: seq<Bits>, b: Bits, x: bool)
    ensures var old', new' := before + [b], before + [b + [x]];
      if Partial(|b + [x]|) == 0 then
        |b + [x]| >= FRAME_BITS && LastComplete(new') == LastFrame(b + [x]) && FrameCount(new') == FrameCount(old') + 1
      else
        LastComplete(new') == LastComplete(old') && FrameCount(new') == FrameCount(old')
  {
    WholeStep(|b|);
    hide Whole, Partial;
    assert Init(before + [b]) == before && Init(before + [b + [x]]) == before;
    assert Last(before + [b + [x]]) == b + [x];
    assert (b + [x])[..Whole(|b|)] == b[..Whole(|b|)];
    assert (b + [x])[..|b| + 1] == b + [x];
  }

  /** How one edge moves the last complete frame and the frame count. */
  lemma {:induction false} TransferStep(ls: seq<Level>, l: Level)
    ensures var before, after := Sent(ls), Sent(ls + [l]);
      && (Active(ls + [l]) ==> after != [])
      && (Selects(ls, l) ==> Init(after) == before)
      && (!l.csN && Active(ls) ==> before != [] && Init(after) == Init(before))
      && if Completes(ls + [l]) then
           |Sampled(ls + [l])| >= FRAME_BITS && LastComplete(after) == LastFrame(Sampled(ls + [l]))
           && FrameCount(after) == FrameCount(before) + 1
         else LastComplete(after) == LastComplete(before) && FrameCount(after) == FrameCount(before)
  {
    SentStep(ls, l);
    EdgeSamples(ls, l);
    hide LastComplete, FrameCount, LastFrame, Sent;
    var before := Sent(ls);
    if l.csN {
    } else if Selects(ls, l) || before == [] {
      NewTransfer(before, if Rises(ls, l) then [l.mosi] else []);
    } else {
      assert before == Init(before) + [Last(before)];
      if Rises(ls, l) {
        LongerTransfer(Init(before), Last(before), l.mosi);
      } else {
        assert Last(before) + [] == Last(before);
      }
    }
  }

  datatype Top = Top(spi: Registers, echoReg: Frame, frameCount: nat) {
    /** echoReg is one edge behind the receiver; latched is what the transfer in progress returns:
        the last frame completed by the transfers before it. */
    ghost predicate Sound(ls: seq<Level>, latched: Frame, falls: nat) {
      && spi.Sound(ls, latched, falls)
      && (Active(ls) ==> Sent(ls) != [] && latched == LastComplete(Init(Sent(ls))))
      && LastComplete(Sent(ls)) == (if spi.rxFrameValid then spi.rxFrame else echoReg)
      && Word16(FrameCount(Sent(ls))) == (if spi.rxFrameValid then Word16(frameCount + 1) else frameCount)
    }
  }

  class EchoTop {
    var k: Top
    ghost var levels: seq<Level>
    ghost var latched: Frame   // the frame loaded at the last selection
    ghost var falls: nat       // falling clock edges since then

    ghost predicate Valid()
      reads this
    {
      k.Sound(levels, latched, falls)
    }

    /** After reset; the registers that no reset clears may hold anything. */
    constructor (rxSr: Frame, rxFrame: Frame)
      ensures Valid() && levels == [] && falls == 0
    {
      k := Top(Registers(false, true, 0, 0, rxSr, Zeros(), false, rxFrame, false), Zeros(), 0);
      levels, latched, falls := [], Zeros(), 0;
    }

    method Posedge(l: Level)
      requires Valid()
      modifies this
      ensures Valid() && levels == old(levels) + [l]
      ensures falls == FallsAfter(old(levels), l, old(falls))
    {
      hide Top.Sound, Registers.Sound;
      SpiIsSound(k, levels, latched, falls);
      var spi := SpiSlave.Posedge(k.spi, l, k.echoReg, levels, latched, falls);
      var n := k.(spi := spi);
      if k.spi.rxFrameValid {
        n := n.(echoReg := k.spi.rxFrame, frameCount := Word16(k.frameCount + 1));
      }
      EchoEdge(k, n, l, levels, latched, falls);
      k := n;
      latched, falls := LatchedAfter(levels, l, old(k).echoReg, latched), FallsAfter(levels, l, falls);
      levels := levels + [l];
    }
  }

  lemma SpiIsSound(k: Top, ls: seq<Level>, latched: Frame, falls: nat)
    requires k.Sound(ls, latched, falls)
    ensures k.spi.Sound(ls, latched, falls)
  {
  }

  lemma EchoEdge(k: Top, n: Top, l: Level, ls: seq<Level>, latched: Frame, falls: nat)
    requires k.Sound(ls, latched, falls)
    requires n.spi.Sound(ls + [l], LatchedAfter(ls, l, k.echoReg, latched), FallsAfter(ls, l, falls))
    requires if k.spi.rxFrameValid then n.echoReg == k.spi.rxFrame && n.frameCount == Word16(k.frameCount + 1)
      else n.echoReg == k.echoReg && n.frameCount == k.frameCount
    ensures n.Sound(ls + [l], LatchedAfter(ls, l, k.echoReg, latched), FallsAfter(ls, l, falls))
  {
    TransferStep(ls, l);
    Word16Next(FrameCount(Sent(ls)));
    hide LastComplete, FrameCount, Sent, Sampled, EndsWith, IsShifted, LastFrame, Word16;
  }

  // ----- the link -----

  /** One edge of the link, as the slave and the master see it. */
  method LinkEdge(echo: EchoTop, l: Level, got: seq<Bits>) returns (got': seq<Bits>)
    requires echo.Valid() && Alternates(echo.levels, echo.falls) && (Selects(echo.levels, l) ==> !l.sclk)
    requires ReadsBack(LastComplete, Sent(echo.levels), got)
    modifies echo
    ensures echo.Valid() && echo.levels == old(echo.levels) + [l] && Alternates(echo.levels, echo.falls)
    ensures ReadsBack(LastComplete, Sent(echo.levels), got')
  {
    AlternatesStep(echo.levels, l, echo.falls);
    SpiIsSound(echo.k, echo.levels, echo.latched, echo.falls);
    LatchedIsLast(echo.k, echo.levels, echo.latched, echo.falls);
    hide Sent, ReadsBack, Alternates, Top.Sound, Registers.Sound, Selects, PrevSclk, LastComplete;
    got' := Sample(echo.k.spi, l, got, LastComplete, echo.levels, echo.latched, echo.falls);
    echo.Posedge(l);
  }

  lemma {:induction false} LatchedIsLast(k: Top, ls: seq<Level>, latched: Frame, falls: nat)
    requires k.Sound(ls, latched, falls)
    ensures Active(ls) ==> Sent(ls) != [] && latched == LastComplete(Init(Sent(ls)))
  {
  }

  /** For every sequence of levels whose clock idles low: each transfer reads back, as a master that
      samples the slave's output at each rise of the clock sees it, the last frame completed by the
      transfers before it. */
  method RunEcho(ls: seq<Level>) returns (got: seq<Bits>)
    requires ClockIdlesLow(ls)
    ensures ReadsBack(LastComplete, Sent(ls), got)
  {
    assert Alternates([], 0) && ReadsBack(LastComplete, Sent([]), []);
    hide Sent, ReadsBack, Alternates, Top.Sound, Selects, ClockIdlesLow, LastComplete;
    var echo := new EchoTop(Zeros(), Zeros());
    got := [];
    for t := 0 to |ls|
      invariant echo.Valid() && echo.levels == ls[..t] && Alternates(ls[..t], echo.falls)
      invariant ReadsBack(LastComplete, Sent(ls[..t]), got)
    {
      LowAtSelection(ls, t);
      PrefixStep(ls, t);
      got := LinkEdge(echo, ls[t], got);
    }
    assert ls[..|ls|] == ls;
  }

  /** When every transfer is one whole frame, each one reads back the transfer before it. */
  lemma FullTransfersEcho(sent: seq<Bits>, got: seq<Bits>)
    requires ReadsBack(LastComplete, sent, got) && forall k :: 0 <= k < |sent| ==> |sent[k]| == FRAME_BITS
    ensures forall k :: 0 <= k < |sent| ==> got[k] == if k == 0 then Zeros() else sent[k - 1]
  {
    hide LastComplete, Whole;
    forall k | 0 <= k < |sent|
      ensures got[k] == if k == 0 then Zeros() else sent[k - 1]
    {
      assert ReadsAt(LastComplete, sent, got, k);
      if k > 0 {
        LastIsWhole(sent[..k]);
      } else {
        NothingComplete();
      }
    }
  }

  lemma NothingComplete()
    ensures LastComplete([]) == Zeros()
  {
  }

  lemma {:induction false} LastIsWhole(sent: seq<Bits>)
    requires sent != [] && |Last(sent)| == FRAME_BITS
    ensures LastComplete(sent) == Last(sent)
  {
    assert Whole(FRAME_BITS) == FRAME_BITS;
    hide Whole;
    assert Last(sent)[..FRAME_BITS] == Last(sent);
  }
}
