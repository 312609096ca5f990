/** The master's side of the SPI link: what it sends in each transfer and what it reads back. */
module Master {
  import opened Words
  import opened Stream
  import opened SpiSlave

  /** The first n bits that the slave puts out for a frame: past its end the line is low. */
  function Output(f: Frame, n: nat): (b: Bits)
    ensures |b| == n && forall i :: 0 <= i < n ==> b[i] == BitAt(f, i)
  {
    seq(n, i requires i >= 0 => BitAt(f, i))
  }

  /** The clock is low whenever the slave gets selected (SPI mode 0). */
  ghost predicate ClockIdlesLow(ls: seq<Level>) {
    forall i :: 0 <= i < |ls| ==> LowIfSelected(ls, i)
  }

  ghost predicate LowIfSelected(ls: seq<Level>, i: nat)
    requires i < |ls|
  {
    Selects(ls[..i], ls[i]) ==> !ls[i].sclk
  }

  lemma LowAtSelection(ls: seq<Level>, t: nat)
    requires ClockIdlesLow(ls) && t < |ls|
    ensures Selects(ls[..t], ls[t]) ==> !ls[t].sclk
  {
    assert LowIfSelected(ls, t);
  }

  /** Each transfer reads back the bits of what the slave owes after the transfers before it. */
  ghost predicate ReadsBack(reply: seq<Bits> -> Frame, sent: seq<Bits>, got: seq<Bits>) {
    |got| == |sent| && forall k :: 0 <= k < |sent| ==> ReadsAt(reply, sent, got, k)
  }

  ghost predicate ReadsAt(reply: seq<Bits> -> Frame, sent: seq<Bits>, got: seq<Bits>, k: nat)
    requires k < |got| == |sent|
  {
    got[k] == Output(reply(sent[..k]), |sent[k]|)
  }

  lemma NewRead(reply: seq<Bits> -> Frame, sent: seq<Bits>, got: seq<Bits>)
    requires ReadsBack(reply, sent, got)
    ensures ReadsBack(reply, sent + [[]], got + [[]])
  {
    var s, g := sent + [[]], got + [[]];
    forall k | 0 <= k < |s|
      ensures ReadsAt(reply, s, g, k)
    {
      if k < |sent| {
        assert ReadsAt(reply, sent, got, k) && s[..k] == sent[..k];
      }
    }
  }

  lemma LongerRead(reply: seq<Bits> -> Frame, sent: seq<Bits>, got: seq<Bits>, x: bool, y: bool)
    requires ReadsBack(reply, sent, got) && sent != [] && y == BitAt(reply(Init(sent)), |Last(sent)|)
    ensures got != [] && ReadsBack(reply, Init(sent) + [Last(sent) + [x]], Init(got) + [Last(got) + [y]])
  {
    var s, g := Init(sent) + [Last(sent) + [x]], Init(got) + [Last(got) + [y]];
    var n := |sent| - 1;
    forall k | 0 <= k < |s|
      ensures ReadsAt(reply, s, g, k)
    {
      assert ReadsAt(reply, sent, got, k) && s[..k] == sent[..k];
      if k == n {
        assert sent[..n] == Init(sent) && s[n] == Last(sent) + [x];
        assert g[n] == Output(reply(Init(sent)), |Last(sent)| + 1);
      }
    }
  }

  /** While selected, rising and falling edges alternate, starting with a rising one. */
  ghost predicate Alternates(ls: seq<Level>, falls: nat) {
    Active(ls) ==> |Sampled(ls)| == falls + if PrevSclk(ls) then 1 else 0
  }

  lemma AlternatesStep(ls: seq<Level>, l: Level, falls: nat)
    requires Alternates(ls, falls) && (Selects(ls, l) ==> !l.sclk)
    ensures Alternates(ls + [l], FallsAfter(ls, l, falls))
  {
    EdgeSamples(ls, l);
    hide Sent;
  }

  /** The master's part of one edge: a selection starts a transfer, a rise samples the output. */
  method Sample(k: Registers, l: Level, got: seq<Bits>, ghost reply: seq<Bits> -> Frame, ghost ls: seq<Level>,
                ghost latched: Frame, ghost falls: nat) returns (got': seq<Bits>)
    requires k.Sound(ls, latched, falls) && Alternates(ls, falls) && (Selects(ls, l) ==> !l.sclk)
    requires Active(ls) ==> Sent(ls) != [] && latched == reply(Init(Sent(ls)))
    requires ReadsBack(reply, Sent(ls), got)
    ensures ReadsBack(reply, Sent(ls + [l]), got')
  {
    SentStep(ls, l);
    hide Sent, ReadsBack, Completes, EndsWith, IsShifted, LastFrame;
    got' := got;
    if !l.csN {
      if k.csQ {
        NewRead(reply, Sent(ls), got);
        got' := got + [[]];
      } else if l.sclk && !k.sclkQ {
        LongerRead(reply, Sent(ls), got, l.mosi, k.miso);
        got' := Init(got) + [Last(got) + [k.miso]];
      } else {
        assert Last(Sent(ls)) + [] == Last(Sent(ls)) && Init(Sent(ls)) + [Last(Sent(ls))] == Sent(ls);
      }
    }
  }

  // ----- bits and bytes -----

  /** The number that bits stand for, most significant first. */
  function Number(b: Bits): (x: nat)
    ensures x < Pow2(|b|)
  {
    if b == [] then 0 else 2 * Number(Init(b)) + if Last(b) then 1 else 0
  }

  /** The low n bits of a number, most significant first. */
  function LowBits(x: nat, n: nat): (b: Bits)
    ensures |b| == n
  {
    if n == 0 then [] else LowBits(x / 2, n - 1) + [x % 2 == 1]
  }

  lemma {:induction false} NumberRoundTrip(x: nat, n: nat)
    requires x < Pow2(n)
    ensures Number(LowBits(x, n)) == x
  {
    if n == 0 {
    } else {
      NumberRoundTrip(x / 2, n - 1);
      assert Init(LowBits(x, n)) == LowBits(x / 2, n - 1);
    }
  }

  lemma Pow2Of8()
    ensures Pow2(8) == 256
  {
    assert Pow2(2) == 4 && Pow2(4) == 16 && Pow2(6) == 64;
  }

  function ByteOf(b: Bits): Byte
    requires |b| == 8
  {
    Pow2Of8();
    Number(b)
  }

  /** The bytes of a frame, most significant bit first. */
  function BytesOf(b: Bits): seq<Byte> {
    if |b| < 8 then [] else [ByteOf(b[..8])] + BytesOf(b[8..])
  }

  function BitsOf(bytes: seq<Byte>): (b: Bits)
    ensures |b| == 8 * |bytes|
  {
    if bytes == [] then [] else LowBits(bytes[0], 8) + BitsOf(bytes[1..])
  }

  lemma {:induction false} BytesRoundTrip(bytes: seq<Byte>)
    ensures BytesOf(BitsOf(bytes)) == bytes
  {
    if bytes == [] {
    } else {
      var b := BitsOf(bytes);
      assert b[..8] == LowBits(bytes[0], 8) && b[8..] == BitsOf(bytes[1..]);
      Pow2Of8();
      NumberRoundTrip(bytes[0], 8);
      BytesRoundTrip(bytes[1..]);
      assert bytes == [bytes[0]] + bytes[1..];
    }
  }

  lemma {:induction false} BytesLength(b: Bits)
    ensures |BytesOf(b)| == |b| / 8
  {
    if |b| < 8 {
    } else {
      BytesLength(b[8..]);
    }
  }
}
