/** Frame and bit error accounting of a delay-N echo (ber.py). */
module Ber {
  import opened Words
  import opened SpiSlave
  import opened Master
  import Echo

  datatype RampResult = RampResult(framesCompared: nat, frameErrors: nat, bitErrors: nat, frameBits: nat)

  /** The number of differing bits of two n-bit numbers. */
  function BitDiff(a: nat, b: nat, n: nat): nat {
    if n == 0 then 0 else BitDiff(a / 2, b / 2, n - 1) + if a % 2 != b % 2 then 1 else 0
  }

  /** The number of differing bits of two frames, over their common length. */
  function FrameDiff(a: seq<Byte>, b: seq<Byte>): nat {
    if a == [] || b == [] then 0 else BitDiff(a[0], b[0], 8) + FrameDiff(a[1..], b[1..])
  }

  /** Frame and bit errors over reads delay .. n-1. */
  function FrameErrors(sent: seq<seq<Byte>>, received: seq<seq<Byte>>, delay: nat, n: nat): nat
    requires n <= |sent| && n <= |received|
  {
    if n <= delay then 0
    else FrameErrors(sent, received, delay, n - 1) + if received[n - 1] != sent[n - 1 - delay] then 1 else 0
  }

  function BitErrors(sent: seq<seq<Byte>>, received: seq<seq<Byte>>, delay: nat, n: nat): nat
    requires n <= |sent| && n <= |received|
  {
    if n <= delay then 0
    else BitErrors(sent, received, delay, n - 1) + FrameDiff(sent[n - 1 - delay], received[n - 1])
  }

  /** The positions below n at which two numbers have different binary digits. */
  ghost function DifferingBits(a: nat, b: nat, n: nat): set<nat> {
    set k: nat | k < n && a / Pow2(k) % 2 != b / Pow2(k) % 2
  }

  /** They are counted, each once. */
  lemma {:induction false} BitDiffCounts(a: nat, b: nat, n: nat)
    ensures BitDiff(a, b, n) == |DifferingBits(a, b, n)|
  {
    if n == 0 {
      assert DifferingBits(a, b, 0) == {};
    } else {
      BitDiffCounts(a / 2, b / 2, n - 1);
      ShiftBits(a, b, n);
    }
  }

  lemma ShiftBits(a: nat, b: nat, n: nat)
    requires n > 0
    ensures |DifferingBits(a, b, n)| == |DifferingBits(a / 2, b / 2, n - 1)| + if a % 2 != b % 2 then 1 else 0
  {
    hide DifferingBits;
    var s, t := DifferingBits(a / 2, b / 2, n - 1), DifferingBits(a, b, n);
    var up := set k <- s :: Next(k);
    forall k: nat
      ensures k in t <==> k in up || (k == 0 && a % 2 != b % 2)
    {
      DigitMoves(a, b, n, k);
      if k > 0 {
        assert k == Next(k - 1);
      }
    }
    assert t == up + if a % 2 != b % 2 then {0} else {};
    NextSize(s);
  }

  lemma DigitMoves(a: nat, b: nat, n: nat, k: nat)
    requires n > 0
    ensures k in DifferingBits(a, b, n) <==>
      if k == 0 then a % 2 != b % 2 else k - 1 in DifferingBits(a / 2, b / 2, n - 1)
  {
    if k > 0 {
      HalveTwice(a, Pow2(k - 1));
      HalveTwice(b, Pow2(k - 1));
    }
  }

  function Next(k: nat): nat {
    k + 1
  }

  lemma {:induction false} NextSize(s: set<nat>)
    ensures |set k <- s :: Next(k)| == |s|
    decreases |s|
  {
    if s == {} {
      assert (set k <- s :: Next(k)) == {};
    } else {
      var x :| x in s;
      NextSize(s - {x});
      assert (set k <- s :: Next(k)) == (set k <- s - {x} :: Next(k)) + {Next(x)};
    }
  }

  /** The places, byte and bit, at which two frames differ over their common length. */
  ghost function DifferingPlaces(a: seq<Byte>, b: seq<Byte>): set<(nat, nat)> {
    set i: nat, k: nat | i < |a| && i < |b| && k in DifferingBits(a[i], b[i], 8) :: (i, k)
  }

  function Here(k: nat): (nat, nat) {
    (0, k)
  }

  function Later(p: (nat, nat)): (nat, nat) {
    (p.0 + 1, p.1)
  }

  /** They are counted, each once. */
  lemma {:induction false} FrameDiffCounts(a: seq<Byte>, b: seq<Byte>)
    ensures FrameDiff(a, b) == |DifferingPlaces(a, b)|
  {
    hide DifferingBits;
    if a == [] || b == [] {
      assert DifferingPlaces(a, b) == {};
    } else {
      BitDiffCounts(a[0], b[0], 8);
      FrameDiffCounts(a[1..], b[1..]);
      SplitPlaces(a, b);
    }
  }

  lemma SplitPlaces(a: seq<Byte>, b: seq<Byte>)
    requires a != [] && b != []
    ensures |DifferingPlaces(a, b)| == |DifferingBits(a[0], b[0], 8)| + |DifferingPlaces(a[1..], b[1..])|
  {
    hide DifferingBits;
    var here, rest, all := DifferingBits(a[0], b[0], 8), DifferingPlaces(a[1..], b[1..]), DifferingPlaces(a, b);
    var first, later := set k <- here :: Here(k), set p <- rest :: Later(p);
    forall p
      ensures p in all <==> p in first || p in later
    {
      PlaceMoves(a, b, p);
      if p.0 == 0 {
        assert p == Here(p.1);
      } else {
        assert p == Later((p.0 - 1, p.1));
      }
    }
    assert all == first + later && first * later == {};
    HereSize(here);
    LaterSize(rest);
  }

  lemma PlaceMoves(a: seq<Byte>, b: seq<Byte>, p: (nat, nat))
    requires a != [] && b != []
    ensures p in DifferingPlaces(a, b) <==>
      if p.0 == 0 then p.1 in DifferingBits(a[0], b[0], 8) else (p.0 - 1, p.1) in DifferingPlaces(a[1..], b[1..])
  {
    hide DifferingBits;
  }

  lemma {:induction false} HereSize(s: set<nat>)
    ensures |set k <- s :: Here(k)| == |s|
    decreases |s|
  {
    if s == {} {
      assert (set k <- s :: Here(k)) == {};
    } else {
      var x :| x in s;
      HereSize(s - {x});
      assert (set k <- s :: Here(k)) == (set k <- s - {x} :: Here(k)) + {Here(x)};
    }
  }

  lemma {:induction false} LaterSize(s: set<(nat, nat)>)
    ensures |set p <- s :: Later(p)| == |s|
    decreases |s|
  {
    if s == {} {
      assert (set p <- s :: Later(p)) == {};
    } else {
      var x :| x in s;
      LaterSize(s - {x});
      assert (set p <- s :: Later(p)) == (set p <- s - {x} :: Later(p)) + {Later(x)};
    }
  }

  /** The reads that differ from the frame sent `delay` transfers earlier. */
  ghost function WrongReads(sent: seq<seq<Byte>>, received: seq<seq<Byte>>, delay: nat, n: nat): set<nat>
    requires n <= |sent| && n <= |received|
  {
    set k: nat | delay <= k < n && received[k] != sent[k - delay]
  }

  /** They are the frame errors. */
  lemma {:induction false} FrameErrorsCount(sent: seq<seq<Byte>>, received: seq<seq<Byte>>, delay: nat, n: nat)
    requires n <= |sent| && n <= |received|
    ensures FrameErrors(sent, received, delay, n) == |WrongReads(sent, received, delay, n)|
  {
    if n <= delay {
      assert WrongReads(sent, received, delay, n) == {};
    } else {
      FrameErrorsCount(sent, received, delay, n - 1);
      assert WrongReads(sent, received, delay, n) == WrongReads(sent, received, delay, n - 1)
        + if received[n - 1] != sent[n - 1 - delay] then {n - 1} else {};
    }
  }

  /** The places at which read k differs from what was sent. */
  ghost function WrongPlaces(sent: seq<seq<Byte>>, received: seq<seq<Byte>>, delay: nat, k: nat): set<(nat, nat)>
    requires k < |sent| && k < |received|
  {
    if k < delay then {} else DifferingPlaces(sent[k - delay], received[k])
  }

  /** All of them, in the first n reads. */
  ghost function WrongBits(sent: seq<seq<Byte>>, received: seq<seq<Byte>>, delay: nat, n: nat): set<(nat, (nat, nat))>
    requires n <= |sent| && n <= |received|
  {
    set k: nat, p | k < n && p in WrongPlaces(sent, received, delay, k) :: InRead(k, p)
  }

  /** They are the bit errors. */
  lemma {:induction false} BitErrorsCount(sent: seq<seq<Byte>>, received: seq<seq<Byte>>, delay: nat, n: nat)
    requires n <= |sent| && n <= |received|
    ensures BitErrors(sent, received, delay, n) == |WrongBits(sent, received, delay, n)|
  {
    hide DifferingPlaces;
    if n <= delay {
      assert WrongBits(sent, received, delay, n) == {};
    } else {
      BitErrorsCount(sent, received, delay, n - 1);
      FrameDiffCounts(sent[n - 1 - delay], received[n - 1]);
      OneMoreRead(sent, received, delay, n - 1);
    }
  }

  lemma OneMoreRead(sent: seq<seq<Byte>>, received: seq<seq<Byte>>, delay: nat, n: nat)
    requires n < |sent| && n < |received|
    ensures |WrongBits(sent, received, delay, n + 1)|
      == |WrongBits(sent, received, delay, n)| + |WrongPlaces(sent, received, delay, n)|
  {
    hide WrongPlaces;
    var last := WrongPlaces(sent, received, delay, n);
    InReadSize(n, last);
    assert WrongBits(sent, received, delay, n + 1)
      == WrongBits(sent, received, delay, n) + set p <- last :: InRead(n, p);
  }

  function InRead(k: nat, p: (nat, nat)): (nat, (nat, nat)) {
    (k, p)
  }

  lemma {:induction false} InReadSize(k: nat, s: set<(nat, nat)>)
    ensures |set p <- s :: InRead(k, p)| == |s|
    decreases |s|
  {
    if s == {} {
      assert (set p <- s :: InRead(k, p)) == {};
    } else {
      var x :| x in s;
      InReadSize(k, s - {x});
      assert (set p <- s :: InRead(k, p)) == (set p <- s - {x} :: InRead(k, p)) + {InRead(k, x)};
    }
  }

  lemma {:induction false} SameFrameNoDiff(a: seq<Byte>)
    ensures FrameDiff(a, a) == 0
  {
    if a == [] {
    } else {
      SameByteNoDiff(a[0], 8);
      SameFrameNoDiff(a[1..]);
    }
  }

  lemma {:induction false} SameByteNoDiff(x: nat, n: nat)
    ensures BitDiff(x, x, n) == 0
  {
    if n == 0 {
    } else {
      SameByteNoDiff(x / 2, n - 1);
    }
  }

  /** A list of reads that ends too early is an error (None), once there is anything to compare. */
  method RampErrors(sent: seq<seq<Byte>>, received: seq<seq<Byte>>, delay: nat) returns (r: Option<RampResult>)
    ensures r.None? <==> delay < |sent| && |received| < |sent|
    ensures r.Some? && |sent| > delay ==>
      r.value == RampResult(|sent| - delay, FrameErrors(sent, received, delay, |sent|),
                            BitErrors(sent, received, delay, |sent|), |sent[0]| * 8)
    ensures |sent| <= delay ==> r == Some(RampResult(0, 0, 0, if sent != [] then |sent[0]| * 8 else 0))
  {
    var compared, frameErrors, bitErrors := 0, 0, 0;
    var frameBits := if sent != [] then |sent[0]| * 8 else 0;
    var k := delay;
    while k < |sent|
      invariant delay <= k && (k <= |sent| || k == delay)
      invariant k > delay ==> k <= |received|
      invariant compared == k - delay
      invariant delay < k <= |sent| ==> frameErrors == FrameErrors(sent, received, delay, k)
      invariant delay < k <= |sent| ==> bitErrors == BitErrors(sent, received, delay, k)
      invariant k == delay ==> frameErrors == bitErrors == 0
    {
      if k >= |received| {
        return None;
      }
      var expected, actual := sent[k - delay], received[k];
      compared := compared + 1;
      if actual != expected {
        frameErrors := frameErrors + 1;
        bitErrors := bitErrors + FrameDiff(expected, actual);
      } else {
        SameFrameNoDiff(expected);
      }
      k := k + 1;
    }
    r := Some(RampResult(compared, frameErrors, bitErrors, frameBits));
  }

  lemma {:induction false} ByteDiffers(a: nat, b: nat, n: nat)
    requires a != b && a < Pow2(n) && b < Pow2(n)
    ensures BitDiff(a, b, n) > 0
  {
    if n == 0 {
      assert false;
    } else if a % 2 == b % 2 {
      ByteDiffers(a / 2, b / 2, n - 1);
    }
  }

  lemma {:induction false} DifferentFramesDiffer(a: seq<Byte>, b: seq<Byte>)
    requires |a| == |b| && a != b
    ensures FrameDiff(a, b) > 0
  {
    if a[0] != b[0] {
      assert Pow2(2) == 4 && Pow2(4) == 16 && Pow2(6) == 64 && Pow2(8) == 256;
      ByteDiffers(a[0], b[0], 8);
    } else {
      assert a == [a[0]] + a[1..] && b == [b[0]] + b[1..];
      DifferentFramesDiffer(a[1..], b[1..]);
    }
  }

  /** No frame errors exactly when every read equals the frame sent `delay` transfers earlier; for
      frames of one length the bit errors are then zero, and only then. */
  lemma {:induction false} NoErrorsIffEcho(sent: seq<seq<Byte>>, received: seq<seq<Byte>>, delay: nat, n: nat)
    requires n <= |sent| && n <= |received|
    ensures FrameErrors(sent, received, delay, n) == 0 <==>
      forall k :: delay <= k < n ==> received[k] == sent[k - delay]
    ensures (forall k :: delay <= k < n ==> |received[k]| == |sent[k - delay]|) ==>
      (BitErrors(sent, received, delay, n) == 0 <==> FrameErrors(sent, received, delay, n) == 0)
  {
    if n <= delay {
    } else {
      NoErrorsIffEcho(sent, received, delay, n - 1);
      var a, b := sent[n - 1 - delay], received[n - 1];
      if a == b {
        SameFrameNoDiff(a);
      } else if |a| == |b| {
        DifferentFramesDiffer(a, b);
      }
    }
  }

  // ----- over the echo -----

  function FramesOf(ts: seq<Bits>): (fs: seq<seq<Byte>>)
    ensures |fs| == |ts| && forall k :: 0 <= k < |ts| ==> fs[k] == BytesOf(ts[k])
  {
    seq(|ts|, k requires 0 <= k < |ts| => BytesOf(ts[k]))
  }

  /** The clock ramp over the echo: with whole frames only, the accounting at delay 1 finds nothing. */
  method RampOverEcho(ls: seq<Level>) returns (r: Option<RampResult>)
    requires ClockIdlesLow(ls)
    requires forall k :: 0 <= k < |Sent(ls)| ==> |Sent(ls)[k]| == FRAME_BITS
    ensures r.Some? && r.value.frameErrors == 0 && r.value.bitErrors == 0
    ensures r.value.framesCompared == if |Sent(ls)| > 1 then |Sent(ls)| - 1 else 0
  {
    var got := Echo.RunEcho(ls);
    var sent := Sent(ls);
    r := RampErrors(FramesOf(sent), FramesOf(got), 1);
    Echo.FullTransfersEcho(sent, got);
    NoErrorsIffEcho(FramesOf(sent), FramesOf(got), 1, |sent|);
  }
}
