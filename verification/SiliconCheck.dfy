/** Judging a silicon run against golden verdicts (silicon_check.py). */
module SiliconCheck {
  import opened Words
  import opened Wire

  /** One header's line: its number, whether the contents match, and the two verdicts it shows. */
  datatype Row = Row(k: nat, ok: bool, got: Verdict, want: Verdict)

  datatype Note = NotReset(seqNo: nat) | FreshStart | NotIncrementing(seqs: seq<nat>) | UnexpectedFirst(first: nat)

  datatype RunResult = TooFewFrames | WrongLength | Judged(passed: bool, rows: seq<Row>, notes: seq<Note>)

  /** The received verdict is a valid one with the expected threats, severity and escalation. */
  predicate ContentMatches(got: Verdict, want: Verdict) {
    && got.valid
    && got.bloomHit == want.bloomHit && got.portScan == want.portScan
    && got.rateAnomaly == want.rateAnomaly && got.ruleMatch == want.ruleMatch
    && got.severity == want.severity && got.escalate == want.escalate
  }

  /** The number b is one more than a, modulo 256. */
  predicate Succeeds(a: nat, b: nat) {
    (b as int - a as int) % 256 == 1
  }

  /** Each sequence number is one more than the one before. */
  predicate Increments(seqs: seq<nat>) {
    forall i :: 1 <= i < |seqs| ==> Succeeds(seqs[i - 1], seqs[i])
  }

  /** The first n reads or expectations are whole frames. */
  predicate WholeFrames(fs: seq<Bytes>, n: nat)
    requires n <= |fs|
  {
    forall k :: 0 <= k < n ==> |fs[k]| == FRAME_LEN
  }

  /** The sequence numbers read back for n headers; the first read is before any verdict. */
  function SeqNos(rx: seq<Bytes>, n: nat): (s: seq<nat>)
    requires n < |rx| && WholeFrames(rx, n + 1)
    ensures |s| == n && forall k :: 0 <= k < n ==> s[k] == DecodeVerdict(rx[k + 1]).seqNo
  {
    seq(n, k requires 0 <= k < n => DecodeVerdict(rx[k + 1]).seqNo)
  }

  /** What is remarked without failing the run: a board that had not been reset, numbers that skip, and
      a first number other than 1. */
  function Remarks(first: Verdict, seqs: seq<nat>): seq<Note> {
    [if first.valid then NotReset(first.seqNo) else FreshStart]
    + (if Increments(seqs) then [] else [NotIncrementing(seqs)])
    + (if seqs != [] && seqs[0] != 1 then [UnexpectedFirst(seqs[0])] else [])
  }

  /** On the bytes: the magic is there, and mask, severity and flag agree. */
  ghost predicate SameBytes(got: Frame, want: Frame) {
    && got[0] == 0xA5 && got[1] as nat % 16 == want[1] as nat % 16 && got[2] == want[2]
    && got[3] as nat % 2 == want[3] as nat % 2
  }

  lemma ContentOnBytes(got: Frame, want: Frame)
    ensures ContentMatches(DecodeVerdict(got), DecodeVerdict(want)) <==> SameBytes(got, want)
  {
    VerdictReads(got);
    VerdictReads(want);
    hide DecodeVerdict;
  }

  /** Counting up, modulo 256. */
  ghost predicate OneMore(a: Byte, b: Byte) {
    b as int == a as int + 1 || (a == 255 && b == 0)
  }

  /** The verdicts read agree with the expected ones on those bytes, and every sequence byte is one more
      than the one before. */
  ghost predicate AgreesOnBytes(rx: seq<Bytes>, expected: seq<Bytes>)
    requires |rx| > |expected| && WholeFrames(rx, |expected| + 1) && WholeFrames(expected, |expected|)
  {
    && (forall k :: 0 <= k < |expected| ==> SameBytes(rx[k + 1], expected[k]))
    && forall k :: 1 <= k < |expected| ==> OneMore(rx[k][4], rx[k + 1][4])
  }

  lemma PassedOnBytes(rx: seq<Bytes>, expected: seq<Bytes>)
    requires |rx| > |expected| && WholeFrames(rx, |expected| + 1) && WholeFrames(expected, |expected|)
    ensures AgreesOnBytes(rx, expected) <==>
      && (forall k :: 0 <= k < |expected| ==> ContentMatches(DecodeVerdict(rx[k + 1]), DecodeVerdict(expected[k])))
      && Increments(SeqNos(rx, |expected|))
  {
    hide ContentMatches, DecodeVerdict, SameBytes;
    forall k | 0 <= k < |expected|
      ensures ContentMatches(DecodeVerdict(rx[k + 1]), DecodeVerdict(expected[k]))
        <==> SameBytes(rx[k + 1], expected[k])
    {
      ContentOnBytes(rx[k + 1], expected[k]);
    }
    SequenceOnBytes(rx, |expected|);
  }

  lemma SequenceOnBytes(rx: seq<Bytes>, n: nat)
    requires n < |rx| && WholeFrames(rx, n + 1)
    ensures Increments(SeqNos(rx, n)) <==> forall k :: 1 <= k < n ==> OneMore(rx[k][4], rx[k + 1][4])
  {
    hide DecodeVerdict, OneMore, Succeeds;
    var seqs := SeqNos(rx, n);
    forall k | 0 <= k < n
      ensures seqs[k] == rx[k + 1][4] as nat
    {
      VerdictReads(rx[k + 1]);
    }
    forall k | 1 <= k < n
      ensures Succeeds(seqs[k - 1], seqs[k]) <==> OneMore(rx[k][4], rx[k + 1][4])
    {
      ByteStep(rx[k][4], rx[k + 1][4]);
    }
    if Increments(seqs) {
      forall k | 1 <= k < n
        ensures OneMore(rx[k][4], rx[k + 1][4])
      {
        assert Succeeds(seqs[k - 1], seqs[k]);
      }
    } else {
      var i :| 1 <= i < n && !Succeeds(seqs[i - 1], seqs[i]);
      assert !OneMore(rx[i][4], rx[i + 1][4]);
    }
  }

  lemma ByteStep(a: Byte, b: Byte)
    ensures OneMore(a, b) <==> Succeeds(a as nat, b as nat)
  {
  }

  /** The remarks, on the bytes: whether a verdict was pending at the start, whether the numbers skip, and
      whether they start at 1. */
  lemma RemarksOnBytes(rx: seq<Bytes>, n: nat)
    requires n < |rx| && WholeFrames(rx, n + 1)
    ensures var notes, seqs := Remarks(DecodeVerdict(rx[0]), SeqNos(rx, n)), SeqNos(rx, n);
      && (FreshStart in notes <==> rx[0][0] != 0xA5)
      && (NotReset(rx[0][4] as nat) in notes <==> rx[0][0] == 0xA5)
      && (NotIncrementing(seqs) in notes <==> exists k :: 1 <= k < n && !OneMore(rx[k][4], rx[k + 1][4]))
      && (n > 0 ==> (UnexpectedFirst(rx[1][4] as nat) in notes <==> rx[1][4] != 1))
  {
    VerdictReads(rx[0]);
    if n > 0 {
      VerdictReads(rx[1]);
    }
    SequenceOnBytes(rx, n);
    hide DecodeVerdict, OneMore, Increments;
  }

  /** So one wrong threat bit, severity or escalation flag in one verdict fails the run. */
  lemma OneDifferenceFails(rx: seq<Bytes>, expected: seq<Bytes>, k: nat)
    requires |rx| > |expected| && WholeFrames(rx, |expected| + 1) && WholeFrames(expected, |expected|)
    requires k < |expected|
    requires rx[k + 1][1] as nat % 16 != expected[k][1] as nat % 16 || rx[k + 1][2] != expected[k][2]
      || rx[k + 1][3] as nat % 2 != expected[k][3] as nat % 2
    ensures !(ContentMatches(DecodeVerdict(rx[k + 1]), DecodeVerdict(expected[k])))
    ensures !AgreesOnBytes(rx, expected)
  {
    hide ContentMatches, DecodeVerdict;
    ContentOnBytes(rx[k + 1], expected[k]);
    assert !SameBytes(rx[k + 1], expected[k]);
  }

  /** rx[k] is what came back during transfer k: for k >= 1 the verdict on header k. */
  method EvaluateRun(rx: seq<Bytes>, expected: seq<Bytes>) returns (r: RunResult)
    ensures r.TooFewFrames? <==> |rx| < |expected| + 1
    ensures r.Judged? <==>
      |rx| > |expected| && WholeFrames(rx, |expected| + 1) && WholeFrames(expected, |expected|)
    ensures r.Judged? ==>
      && |r.rows| == |expected|
      && (forall k :: 0 <= k < |expected| ==>
            var got, want := DecodeVerdict(rx[k + 1]), DecodeVerdict(expected[k]);
            r.rows[k] == Row(k + 1, ContentMatches(got, want), got, want))
      && (r.passed <==> (forall k :: 0 <= k < |expected| ==> r.rows[k].ok) && Increments(SeqNos(rx, |expected|)))
      && r.notes == Remarks(DecodeVerdict(rx[0]), SeqNos(rx, |expected|))
    ensures r.Judged? ==> (r.passed <==> AgreesOnBytes(rx, expected))
  {
    var n := |expected|;
    if |rx| < n + 1 {
      return TooFewFrames;
    }
    if |rx[0]| != FRAME_LEN {
      return WrongLength;
    }
    hide ContentMatches, DecodeVerdict, Increments, Remarks, AgreesOnBytes;
    var rows: seq<Row>, seqs: seq<nat>, contentOk := [], [], true;
    for k := 1 to n + 1
      invariant WholeFrames(rx, k) && WholeFrames(expected, k - 1)
      invariant |rows| == |seqs| == k - 1
      invariant forall j :: 0 <= j < k - 1 ==>
        var got, want := DecodeVerdict(rx[j + 1]), DecodeVerdict(expected[j]);
        rows[j] == Row(j + 1, ContentMatches(got, want), got, want)
      invariant forall j :: 0 <= j < k - 1 ==> seqs[j] == DecodeVerdict(rx[j + 1]).seqNo
      invariant contentOk <==> forall j :: 0 <= j < k - 1 ==> rows[j].ok
    {
      if |rx[k]| != FRAME_LEN || |expected[k - 1]| != FRAME_LEN {
        return WrongLength;
      }
      var rv, ev := DecodeVerdict(rx[k]), DecodeVerdict(expected[k - 1]);
      var ok := ContentMatches(rv, ev);
      contentOk := contentOk && ok;
      seqs := seqs + [rv.seqNo];
      rows := rows + [Row(k, ok, rv, ev)];
    }
    assert seqs == SeqNos(rx, n);
    var notes := Remark(DecodeVerdict(rx[0]), seqs);
    r := Judged(contentOk && Increments(seqs), rows, notes);
    PassedOnBytes(rx, expected);
  }

  method Remark(first: Verdict, seqs: seq<nat>) returns (notes: seq<Note>)
    ensures notes == Remarks(first, seqs)
  {
    notes := [if first.valid then NotReset(first.seqNo) else FreshStart];
    if !Increments(seqs) {
      notes := notes + [NotIncrementing(seqs)];
    }
    if seqs != [] && seqs[0] != 1 {
      notes := notes + [UnexpectedFirst(seqs[0])];
    }
  }

  lemma StepMod(a: nat, b: nat, k: nat)
    requires b < 256 && a % 256 == (k + 255) % 256
    ensures (b as int - a as int) % 256 == 1 <==> b == k % 256
  {
    var p, q, r := a / 256, (k + 255) / 256, k / 256;
    var d := b as int - (k % 256) as int;
    assert b as int - a as int == (d + 1) + 256 * (q - p - r - 1);
    ModShift(d + 1, q - p - r - 1);
    OneOff(d);
  }

  lemma OneOff(d: int)
    requires -256 < d < 256
    ensures (d + 1) % 256 == 1 <==> d == 0
  {
  }

  /** The numbers increment exactly when the k-th is the first plus k, modulo 256: any start is accepted. */
  lemma {:induction false} IncrementsIff(seqs: seq<nat>)
    requires seqs != [] && forall k :: 0 <= k < |seqs| ==> seqs[k] < 256
    ensures Increments(seqs) <==> CountsUp(seqs)
  {
    if |seqs| > 1 {
      var n := |seqs| - 1;
      IncrementsIff(seqs[..n]);
      IncrementsSplit(seqs);
      CountsUpSplit(seqs);
    } else {
      assert seqs[0] % 256 == seqs[0];
    }
  }

  /** The k-th number is the first plus k, modulo 256. */
  predicate CountsUp(seqs: seq<nat>) {
    forall k :: 0 <= k < |seqs| ==> seqs[k] == (seqs[0] + k) % 256
  }

  lemma CountsUpSplit(seqs: seq<nat>)
    requires |seqs| > 1 && seqs[|seqs| - 1] < 256
    ensures var n := |seqs| - 1;
      CountsUp(seqs) <==> CountsUp(seqs[..n]) && (seqs[n] as int - seqs[n - 1] as int) % 256 == 1
  {
    var n := |seqs| - 1;
    var s := seqs[..n];
    if CountsUp(s) {
      assert s[n - 1] == (s[0] + (n - 1)) % 256;
      StepMod(seqs[n - 1], seqs[n], seqs[0] + n);
    }
  }

  lemma IncrementsSplit(seqs: seq<nat>)
    requires |seqs| > 1
    ensures var n := |seqs| - 1;
      Increments(seqs) <==> Increments(seqs[..n]) && (seqs[n] as int - seqs[n - 1] as int) % 256 == 1
  {
  }

  /** A run of consecutive numbers from `start`. */
  function Numbered(start: nat, n: nat): (s: seq<nat>)
    ensures |s| == n && forall k :: 0 <= k < n ==> s[k] == (start + k) % 256
  {
    seq(n, k requires k >= 0 => (start + k) % 256)
  }

  /** Losing d frames from the interior of a run is noticed, unless 256 divides d. */
  lemma InteriorLossIsNoticed(start: nat, n: nat, i: nat, d: nat)
    requires 0 < i && i + d < n
    ensures var all := Numbered(start, n);
      Increments(all[..i] + all[i + d..]) <==> d % 256 == 0
  {
    var all := Numbered(start, n);
    var got := all[..i] + all[i + d..];
    if d % 256 == 0 {
      forall k | 0 <= k < |got|
        ensures got[k] == (start + k) % 256
      {
        if k >= i {
          assert got[k] == all[k + d];
          SkipsWhole(start + k, d);
        }
      }
      FirstPlus(got, start);
      IncrementsIff(got);
    } else {
      assert got[i] == all[i + d] && got[i - 1] == all[i - 1];
      LossJump(start + i, d);
    }
  }

  lemma SkipsWhole(x: nat, d: nat)
    requires d % 256 == 0
    ensures (x + d) % 256 == x % 256
  {
  }

  lemma FirstPlus(got: seq<nat>, start: nat)
    requires got != [] && forall k :: 0 <= k < |got| ==> got[k] == (start + k) % 256
    ensures CountsUp(got)
  {
    forall k | 0 <= k < |got|
      ensures got[k] == (got[0] + k) % 256
    {
      assert got[0] == (start + 0) % 256;
      ModShift(start % 256 + k, start / 256);
    }
  }

  lemma LossJump(x: nat, d: nat)
    requires x > 0 && d % 256 != 0
    ensures ((x + d) % 256 - (x - 1) % 256) % 256 != 1
  {
  }
}
