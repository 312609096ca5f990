/** The link to the device: each transfer returns the reply to the frame before, and windows may end
    between any two frames. */
module Link {
  import opened Words
  import opened Stream
  import opened Wire
  import opened Device
  import F = FlowTable

  /** One transfer as the device sees it: the frame received, the device on receipt, the verdict
      that it gives on that frame, and the device afterwards. */
  datatype Entry = Entry(frame: Frame, before: Dev, verdict: Verdict, after: Dev)

  /** The device after the first t transfers of a log. */
  ghost function DevAfter(first: Dev, log: seq<Entry>, t: nat): Dev
    requires t <= |log|
  {
    if t == 0 then first else log[t - 1].after
  }

  /** A log of consecutive transfers: ticks(t) windows end before the t-th. */
  ghost predicate Consecutive(first: Dev, ticks: nat -> nat, log: seq<Entry>) {
    first.Valid() && forall t :: 0 <= t < |log| ==> Follows(first, ticks, log, t)
  }

  ghost predicate Follows(first: Dev, ticks: nat -> nat, log: seq<Entry>, t: nat)
    requires t < |log|
  {
    var d, e := DevAfter(first, log, t), log[t];
    && d.Valid() && e.before == TicksOf(d, ticks(t))
    && e.verdict == VerdictOn(e.before, e.frame) && e.after == Respond(e.before, e.frame)
  }

  /** The transfer of f to a device in state d, after n windows have ended. */
  ghost function Transfer(d: Dev, n: nat, f: Frame): Entry
    requires d.Valid()
  {
    var m := TicksOf(d, n);
    Entry(f, m, VerdictOn(m, f), Respond(m, f))
  }

  lemma FollowsStays(first: Dev, ticks: nat -> nat, log: seq<Entry>, e: Entry, t: nat)
    requires t < |log| && Follows(first, ticks, log, t)
    ensures Follows(first, ticks, log + [e], t)
  {
    hide Respond, VerdictOn, TicksOf, Dev.Valid;
  }

  lemma ConsecutiveGrows(first: Dev, ticks: nat -> nat, log: seq<Entry>, d: Dev, f: Frame)
    requires Consecutive(first, ticks, log) && d == DevAfter(first, log, |log|) && d.Valid()
    ensures Consecutive(first, ticks, log + [Transfer(d, ticks(|log|), f)])
  {
    hide Respond, VerdictOn, TicksOf, Dev.Valid;
    var e := Transfer(d, ticks(|log|), f);
    assert DevAfter(first, log + [e], |log|) == DevAfter(first, log, |log|);
    assert Follows(first, ticks, log + [e], |log|);
    forall t | 0 <= t < |log|
      ensures Follows(first, ticks, log + [e], t)
    {
      FollowsStays(first, ticks, log, e, t);
    }
  }

  lemma ConsecutivePrefix(first: Dev, ticks: nat -> nat, log: seq<Entry>, t: nat)
    requires Consecutive(first, ticks, log) && t <= |log|
    ensures Consecutive(first, ticks, log[..t]) && DevAfter(first, log[..t], t) == DevAfter(first, log, t)
  {
    hide Respond, VerdictOn, TicksOf, Dev.Valid;
    forall i | 0 <= i < t
      ensures Follows(first, ticks, log[..t], i)
    {
      assert Follows(first, ticks, log, i);
    }
  }

  /** The device after the frames, one at a time: ticks(t) windows end before the t-th. */
  ghost function Played(first: Dev, fs: seq<Frame>, ticks: nat -> nat): (d: Dev)
    requires first.Valid()
    ensures d.Valid()
  {
    if fs == [] then first else Respond(TicksOf(Played(first, Init(fs), ticks), ticks(|fs| - 1)), Last(fs))
  }

  lemma {:induction false} PlayedAppend(first: Dev, fs: seq<Frame>, f: Frame, ticks: nat -> nat)
    requires first.Valid()
    ensures Played(first, fs + [f], ticks) == Respond(TicksOf(Played(first, fs, ticks), ticks(|fs|)), f)
  {
    hide Respond, TicksOf;
    assert Init(fs + [f]) == fs;
  }

  /** Only the ticks before the frames matter. */
  lemma {:induction false} PlayedSame(first: Dev, fs: seq<Frame>, ticks: nat -> nat, ticks': nat -> nat)
    requires first.Valid() && forall n :: 0 <= n < |fs| ==> ticks(n) == ticks'(n)
    ensures Played(first, fs, ticks) == Played(first, fs, ticks')
  {
    hide Respond, TicksOf;
    if fs == [] {
    } else {
      PlayedSame(first, Init(fs), ticks, ticks');
    }
  }

  function WriteFrames(ws: seq<F.Setting>): seq<Frame> {
    if ws == [] then []
    else WriteFrames(Init(ws)) + [EncodeThresholdWrite(Last(ws).tid, if Last(ws).value < 0 then 0 else Last(ws).value)]
  }

  /** The device's registers and the software's read alike after the same writes: each holds the last value
      written, and the comparisons are made with registers 0, 1 and 2. */
  lemma {:induction false} ThresholdWritesAgree(first: Dev, ws: seq<F.Setting>, ticks: nat -> nat)
    requires first.Valid() && first.thr == Thresholds(5, 5, 8, 0)
    requires forall w <- ws :: w.tid < 256 && 0 <= w.value < 0x1_0000
    ensures |WriteFrames(ws)| == |ws|
    ensures var d := Played(first, WriteFrames(ws), ticks);
      && (forall tid: Byte :: ReadThreshold(d.thr, tid) == F.Latest(ws, tid))
      && Limits(d.thr) == F.Limits(F.Latest(ws, 0), F.Latest(ws, 1), F.Latest(ws, 2))
      && EpochTap(d.thr) == F.Latest(ws, 3) % 256
  {
    hide Respond, TicksOf, EncodeThresholdWrite, ReadThreshold, Limits, EpochTap;
    if ws == [] {
      ResetReads(first.thr);
    } else {
      var was, w := WriteFrames(Init(ws)), Last(ws);
      assert w in ws && forall v <- Init(ws) :: v in ws;
      ThresholdWritesAgree(first, Init(ws), ticks);
      PlayedAppend(first, was, EncodeThresholdWrite(w.tid, w.value), ticks);
      WriteStep(Played(first, was, ticks), ticks(|was|), w);
    }
    ReadsAre(Played(first, WriteFrames(ws), ticks).thr);
  }

  lemma ResetReads(thr: Thresholds)
    requires thr == Thresholds(5, 5, 8, 0)
    ensures forall tid: Byte :: ReadThreshold(thr, tid) == F.Latest([], tid)
  {
  }

  lemma WriteStep(d: Dev, ticks: nat, w: F.Setting)
    requires d.Valid() && w.tid < 256 && 0 <= w.value < 0x1_0000
    ensures var n := Respond(TicksOf(d, ticks), EncodeThresholdWrite(w.tid, w.value));
      forall tid: Byte :: ReadThreshold(n.thr, tid)
        == if tid == w.tid && w.tid < 4 then w.value else ReadThreshold(d.thr, tid)
  {
    hide Respond, EncodeThresholdWrite, ReadThreshold;
    OnThresholdWrite(TicksOf(d, ticks), w.tid, w.value,
                     Respond(TicksOf(d, ticks), EncodeThresholdWrite(w.tid, w.value)));
  }

  lemma ReadsAre(thr: Thresholds)
    ensures Limits(thr) == F.Limits(ReadThreshold(thr, 0), ReadThreshold(thr, 1), ReadThreshold(thr, 2))
    ensures EpochTap(thr) == ReadThreshold(thr, 3) % 256
  {
  }

  function FramesOf(log: seq<Entry>): (fs: seq<Frame>)
    ensures |fs| == |log| && forall t :: 0 <= t < |log| ==> fs[t] == log[t].frame
  {
    seq(|log|, t requires 0 <= t < |log| => log[t].frame)
  }

  /** The device of a log is the one that has played its frames. */
  lemma {:induction false} LogIsPlayed(first: Dev, ticks: nat -> nat, log: seq<Entry>, t: nat)
    requires Consecutive(first, ticks, log) && t <= |log|
    ensures DevAfter(first, log, t) == Played(first, FramesOf(log)[..t], ticks)
  {
    hide Respond, TicksOf, VerdictOn;
    if t == 0 {
    } else {
      LogIsPlayed(first, ticks, log, t - 1);
      assert Follows(first, ticks, log, t - 1);
      PrefixStep(FramesOf(log), t - 1);
      PlayedAppend(first, FramesOf(log)[..t - 1], log[t - 1].frame, ticks);
    }
  }

  /** Every frame is counted once, so the t-th frame's verdict carries its number. */
  lemma {:induction false} SequenceNumbers(first: Dev, ticks: nat -> nat, log: seq<Entry>, t: nat)
    requires Consecutive(first, ticks, log) && t < |log|
    ensures log[t].before.frameCount == Word16(first.frameCount + t)
    ensures log[t].verdict.seqNo == (first.frameCount + t + 1) % 256
  {
    hide Respond, VerdictOn, TicksOf;
    assert Follows(first, ticks, log, t);
    SeqNoOf(log[t].before, log[t].frame);
    SameCount(DevAfter(first, log, t), ticks(t));
    if t > 0 {
      SequenceNumbers(first, ticks, log, t - 1);
      assert Follows(first, ticks, log, t - 1);
      NextCount(log[t - 1].before, log[t - 1].frame, DevAfter(first, log, t), first.frameCount + t - 1);
    } else {
      SmallCount(first);
    }
    ByteOfWord(first.frameCount + t);
    hide Word16;
  }

  lemma SameCount(d: Dev, n: nat)
    requires d.Valid()
    ensures TicksOf(d, n).frameCount == d.frameCount
  {
  }

  lemma SmallCount(d: Dev)
    requires d.Valid()
    ensures Word16(d.frameCount) == d.frameCount
  {
  }

  lemma NextCount(d: Dev, f: Frame, n: Dev, c: nat)
    requires d.Valid() && n == Respond(d, f) && d.frameCount == Word16(c)
    ensures n.frameCount == Word16(c + 1)
  {
    Counts(d, f, n);
    Word16Next(c);
    hide Respond, Word16;
  }

  lemma ByteOfWord(c: nat)
    ensures (Word16(c) + 1) % 256 == (c + 1) % 256
  {
    ModShift(Word16(c) + 1, c / 0x1_0000 * 256);
  }

  lemma SeqNoOf(d: Dev, f: Frame)
    requires d.Valid()
    ensures VerdictOn(d, f).seqNo == (d.frameCount + 1) % 256
  {
  }

  class Link {
    var d: Dev
    const ticks: nat -> nat
    var count: nat                   // transfers so far
    ghost const first: Dev
    ghost var log: seq<Entry>

    ghost predicate Valid()
      reads this
    {
      && Consecutive(first, ticks, log) && count == |log|
      && d == DevAfter(first, log, |log|) && d.Valid()
    }

    constructor (d: Dev, ticks: nat -> nat)
      requires d.Valid()
      ensures Valid() && this.d == first == d && this.ticks == ticks && log == []
    {
      this.d, this.ticks, count := d, ticks, 0;
      first, log := d, [];
    }

    /** Each transfer returns the reply to the frame before. */
    method SendFrame(f: Frame) returns (rx: Frame)
      requires Valid()
      modifies this`d, this`count, this`log
      ensures Valid() && rx == old(d).tx
      ensures Continues(old(log), log, [f])
      ensures Last(log).before == TicksOf(old(d), ticks(|old(log)|)) && d == Respond(Last(log).before, f)
    {
      hide Respond, TicksOf, Dev.Valid, Consecutive, VerdictOn;
      ConsecutiveGrows(first, ticks, log, d, f);
      rx := d.tx;
      log := log + [Transfer(d, ticks(count), f)];
      d := Respond(TicksOf(d, ticks(count)), f);
      count := count + 1;
    }
  }

  /** log continues before with transfers of exactly these frames. */
  ghost predicate Continues(before: seq<Entry>, log: seq<Entry>, frames: seq<Frame>) {
    && |log| == |before| + |frames| && log[..|before|] == before
    && forall i :: 0 <= i < |frames| ==> log[|before| + i].frame == frames[i]
  }

  lemma ContinuesTwice(a: seq<Entry>, b: seq<Entry>, c: seq<Entry>, f: Frame, g: Frame)
    requires Continues(a, b, [f]) && Continues(b, c, [g])
    ensures Continues(a, c, [f, g]) && c[|a|] == Last(b)
  {
    assert c[..|a|] == b[..|a|];
    assert b[|a| + 0].frame == [f][0] && c[|b| + 0].frame == [g][0];
    assert c[|a|] == b[|a|];
  }

  /** While a classify frame is the last one sent, the pending reply decodes to its verdict. */
  lemma PendingVerdict(first: Dev, ticks: nat -> nat, log: seq<Entry>)
    requires Consecutive(first, ticks, log) && log != [] && Last(log).frame[16] == OP_CLASSIFY
    ensures DecodeVerdict(DevAfter(first, log, |log|).tx) == Last(log).verdict
  {
    assert Follows(first, ticks, log, |log| - 1);
    var e := Last(log);
    hide Respond, VerdictOn, DecodeVerdict;
    OnClassify(e.before, e.frame, Respond(e.before, e.frame));
  }

  /** Every verdict in a log is a real one. */
  lemma LogIsValid(first: Dev, ticks: nat -> nat, log: seq<Entry>, t: nat)
    requires Consecutive(first, ticks, log) && t < |log|
    ensures log[t].verdict.valid
  {
    assert Follows(first, ticks, log, t);
    hide Respond, VerdictOn, TicksOf;
  }
}
