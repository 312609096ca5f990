/** The demo controller (demo/orchestrator.py) over the one-frame-lag device: it polls snapshots,
    pushes block rules and records verdicts. */
module Orchestrator {
  import opened Words
  import opened Stream
  import opened Wire
  import opened Device
  import opened Link
  import C = CountMin
  import T = Telemetry

  const VERDICTS_KEPT := 12
  const THR_RULE_EPOCH := 3
  const PUSH_ACTION := 5
  const PUSH_SEVERITY := 3

  // ----- the controller -----

  datatype PushedRule = PushedRule(src: Ip, idx: nat)

  /** A main-loop read: the number of the transfer that returned it, and the decoded reply. */
  datatype Read = Read(at: nat, verdict: Verdict)

  class DemoState {
    var snapshot: Option<SnapResponse>
    var pushed: seq<PushedRule>
    var recent: seq<Verdict>          // the last verdicts, at most VERDICTS_KEPT
    var ruleEpoch: nat
    var framesSent: nat
    ghost var replies: seq<Read>        // every main-loop read

    constructor (epoch: nat)
      ensures snapshot == None && pushed == [] && recent == [] && ruleEpoch == epoch && framesSent == 0 && replies == []
    {
      snapshot, pushed, recent, ruleEpoch, framesSent, replies := None, [], [], epoch, 0, [];
    }
  }

  function LastOf<T>(s: seq<T>, n: nat): seq<T> {
    if |s| <= n then s else s[|s| - n..]
  }

  method RecordVerdict(state: DemoState, v: Verdict)
    requires |state.recent| <= VERDICTS_KEPT
    modifies state`recent
    ensures state.recent == LastOf(old(state.recent) + [v], VERDICTS_KEPT)
  {
    if |state.recent| == VERDICTS_KEPT {
      state.recent := state.recent[1..];
    }
    state.recent := state.recent + [v];
  }

  /** The most recent push at an index. */
  function LatestAt(pushed: seq<PushedRule>, idx: nat): Option<Ip> {
    if pushed == [] then None
    else if Last(pushed).idx == idx then Some(Last(pushed).src)
    else LatestAt(Init(pushed), idx)
  }

  /** The rule store holds exactly the most recent pushes; every other cell is blank. */
  ghost predicate HoldsPushes(d: Dev, pushed: seq<PushedRule>, epoch: nat) {
    && |d.rules| == RULE_DEPTH
    && forall i :: 0 <= i < RULE_DEPTH ==> match LatestAt(pushed, i)
         case None => DecodeRule(d.rules[i]).src == 0
         case Some(src) => DecodeRule(d.rules[i]) == Rule(src, PUSH_ACTION, PUSH_SEVERITY, epoch)
  }

  /** Pushes are of distinct nonzero sources, each at its own lookup index. */
  ghost predicate ProperPushes(pushed: seq<PushedRule>) {
    && (forall i :: 0 <= i < |pushed| ==> pushed[i].src != 0 && pushed[i].idx == LookupIdx(pushed[i].src))
    && (forall i, j :: 0 <= i < j < |pushed| ==> pushed[i].src != pushed[j].src)
  }

  lemma {:induction false} LatestIsOwn(pushed: seq<PushedRule>, idx: nat)
    requires ProperPushes(pushed) && LatestAt(pushed, idx).Some?
    ensures LookupIdx(LatestAt(pushed, idx).value) == idx && LatestAt(pushed, idx).value != 0
  {
    hide LookupIdx;
    if Last(pushed).idx == idx {
    } else {
      LatestIsOwn(Init(pushed), idx);
    }
  }

  /** A nonzero source matches a rule exactly when it is the most recent push at its index. */
  lemma {:induction false} MatchesIffLatest(d: Dev, pushed: seq<PushedRule>, epoch: nat, src: Ip)
    requires HoldsPushes(d, pushed, epoch) && src != 0
    ensures LookupRule(d.rules, src, epoch).matches <==> LatestAt(pushed, LookupIdx(src)) == Some(src)
  {
    hide LookupIdx, DecodeRule;
  }

  /** The verdict bit on the wire: a frame from a nonzero source reports a rule match exactly when that
      source is the most recent push at its index. */
  lemma {:induction false} VerdictReportsLatest(d: Dev, f: Frame, pushed: seq<PushedRule>)
    requires d.Valid() && HoldsPushes(d, pushed, EpochTap(d.thr)) && SourceOf(f) != 0
    ensures VerdictOn(d, f).ruleMatch <==> LatestAt(pushed, LookupIdx(SourceOf(f))) == Some(SourceOf(f))
  {
    MatchesIffLatest(d, pushed, EpochTap(d.thr), SourceOf(f));
    hide SourceOf, DestOf, LookupIdx, LatestAt, LookupRule, HoldsPushes;
  }

  /** A frame from the source that was pushed last at its index is reported as a rule match at the
      highest severity, and escalated. */
  lemma {:induction false} LatestPushIsEnforced(d: Dev, f: Frame, pushed: seq<PushedRule>)
    requires d.Valid() && HoldsPushes(d, pushed, EpochTap(d.thr)) && SourceOf(f) != 0
    requires LatestAt(pushed, LookupIdx(SourceOf(f))) == Some(SourceOf(f))
    ensures var v := VerdictOn(d, f); v.ruleMatch && v.escalate && v.severity == 3
  {
    VerdictReportsLatest(d, f, pushed);
    EscalatesIffThreat(d, f);
    SeverityIsLargest(d, f);
    var cell := d.rules[LookupIdx(SourceOf(f))];
    assert DecodeRule(cell).severity == PUSH_SEVERITY;
    LowBits(cell[5]);
    hide VerdictOn, LookupIdx, SourceOf, LatestAt;
  }

  /** What every part of the controller keeps on the link. */
  ghost predicate Settled(d: Dev, pushed: seq<PushedRule>, epoch: nat) {
    d.Valid() && EpochTap(d.thr) == epoch && HoldsPushes(d, pushed, epoch)
  }

  lemma SettledKept(d: Dev, n: Dev, pushed: seq<PushedRule>, epoch: nat)
    requires Settled(d, pushed, epoch) && n.Valid() && n.rules == d.rules && n.thr == d.thr
    ensures Settled(n, pushed, epoch)
  {
    hide LatestAt, DecodeRule;
  }

  /** A frame that can change neither the rules nor the thresholds. */
  predicate Harmless(f: Frame) {
    f[16] == OP_CLASSIFY || f[16] == OP_SNAPSHOT || f == EncodeThresholdRead(THR_RULE_EPOCH)
  }

  lemma HarmlessKeeps(d: Dev, ticks: nat, f: Frame, n: Dev)
    requires d.Valid() && Harmless(f) && n == Respond(TicksOf(d, ticks), f)
    ensures n.Valid() && n.rules == d.rules && n.thr == d.thr
    ensures forall e <- d.events :: e in n.events
  {
    hide TicksOf, Respond;
    var m := TicksOf(d, ticks);
    TicksKeep(d, ticks);
    Counts(m, f, n);
    if f[16] == OP_CLASSIFY {
      OnClassify(m, f, n);
    } else if f[16] == OP_SNAPSHOT {
      OnSnapshot(m, f, n);
    } else {
      OnThresholdRead(m, THR_RULE_EPOCH, n);
    }
  }

  /** Every pushed source has been counted by the telemetry: it sent a classify frame. */
  ghost predicate AllSeen(d: Dev, pushed: seq<PushedRule>) {
    forall p <- pushed :: Packet(p.src) in d.events
  }

  /** A polled top source fits an address and, when nonzero, has been counted. */
  ghost predicate SoundSnapshot(d: Dev, s: Option<SnapResponse>) {
    s.Some? ==> Fits(s.value) && (s.value.top1Key != 0 ==> Packet(s.value.top1Key as Ip) in d.events)
  }

  lemma {:induction false} WindowSourcesAreCounted(events: seq<Event>, x: Ip)
    requires x in Window(events)
    ensures Packet(x) in events
  {
    assert events == Init(events) + [Last(events)];
    if Last(events) == Packet(x) {
    } else {
      WindowSourcesAreCounted(Init(events), x);
    }
  }

  lemma {:induction false} SnapshotKeyIsCounted(events: seq<Event>)
    ensures var key := SnapRegisters(events).top1Key; key != 0 ==> Packet(key) in events
  {
    if events == [] {
    } else {
      var es := Init(events);
      assert events == es + [Last(events)];
      if Last(events).Tick? {
        T.TopSandwich(es, 0);
        if Window(es) == [] {
          T.EmptyWindowHasNoTop(es);
        } else {
          WindowSourcesAreCounted(es, T.After(es).top1Key);
        }
      } else {
        SnapshotKeyIsCounted(es);
      }
    }
  }

  /** Everything that holds of link and state between the controller's steps. */
  ghost predicate Steady(d: Dev, pushed: seq<PushedRule>, epoch: nat, snapshot: Option<SnapResponse>) {
    Settled(d, pushed, epoch) && AllSeen(d, pushed) && SoundSnapshot(d, snapshot)
  }

  lemma SteadyKept(d: Dev, n: Dev, pushed: seq<PushedRule>, epoch: nat, snapshot: Option<SnapResponse>)
    requires Steady(d, pushed, epoch, snapshot)
    requires n.Valid() && n.rules == d.rules && n.thr == d.thr && forall e <- d.events :: e in n.events
    ensures Steady(n, pushed, epoch, snapshot)
  {
    SettledKept(d, n, pushed, epoch);
    hide Settled;
  }

  /** A harmless frame leaves the link steady. */
  method SendHarmless(link: Link, f: Frame, ghost pushed: seq<PushedRule>, ghost epoch: nat,
                      ghost snapshot: Option<SnapResponse>) returns (rx: Frame)
    requires link.Valid() && Harmless(f) && Steady(link.d, pushed, epoch, snapshot)
    modifies link
    ensures link.Valid() && Continues(old(link.log), link.log, [f]) && rx == old(link.d).tx
    ensures Last(link.log).before.Valid() && link.d == Respond(Last(link.log).before, f)
    ensures Last(link.log).before.thr == old(link.d).thr
    ensures forall e <- old(link.d).events :: e in link.d.events
    ensures Steady(link.d, pushed, epoch, snapshot)
  {
    ghost var d, n := link.d, |link.log|;
    hide Respond, Steady, Consecutive, Follows;
    rx := link.SendFrame(f);
    HarmlessKeeps(d, link.ticks(n), f, link.d);
    SteadyKept(d, link.d, pushed, epoch, snapshot);
  }

  /** Read the rule epoch: the reply that the flush returns is the one requested. */
  method ReadRuleEpoch(link: Link) returns (epoch: nat)
    requires link.Valid() && HoldsPushes(link.d, [], EpochTap(link.d.thr))
    modifies link
    ensures link.Valid() && Continues(old(link.log), link.log, [EncodeThresholdRead(THR_RULE_EPOCH), Flush()])
    ensures Steady(link.d, [], epoch, None) && epoch == EpochTap(old(link.d.thr))
  {
    ghost var tap, log := EpochTap(link.d.thr), link.log;
    assert Steady(link.d, [], tap, None);
    hide Steady, Respond, TicksOf, Settled, HoldsPushes, DecodeThresholdRead, Consecutive, DevAfter, Continues,
      Dev.Valid, EncodeThresholdRead;
    var before := SendHarmless(link, EncodeThresholdRead(THR_RULE_EPOCH), [], tap, None);
    OnThresholdRead(Last(link.log).before, THR_RULE_EPOCH, link.d);
    ghost var log1 := link.log;
    var rx := SendHarmless(link, Flush(), [], tap, None);
    ContinuesTwice(log, log1, link.log, EncodeThresholdRead(THR_RULE_EPOCH), Flush());
    epoch := DecodeThresholdRead(rx).value.1 % 256;
  }

  /** Poll the last completed window: the reply is that of the window latched when the request arrived. */
  method PollSnapshot(link: Link, state: DemoState, ghost epoch: nat)
    requires link.Valid() && Steady(link.d, state.pushed, epoch, state.snapshot)
    modifies link, state`snapshot
    ensures link.Valid() && Continues(old(link.log), link.log, [SnapshotRequest(), Flush()])
    ensures state.snapshot == Some(Response(SnapRegisters(link.log[|old(link.log)|].before.events)))
    ensures Steady(link.d, state.pushed, epoch, state.snapshot)
  {
    ghost var snapshot, log := state.snapshot, link.log;
    hide Steady, Respond, TicksOf, Settled, HoldsPushes, SnapRegisters, Response, SnapshotReply, Consecutive,
      DevAfter, Continues, Dev.Valid;
    var before := SendHarmless(link, SnapshotRequest(), state.pushed, epoch, snapshot);
    ghost var asked := Last(link.log).before;
    OnSnapshot(asked, SnapshotRequest(), link.d);
    ReplyDecodes(asked.events);
    ghost var log1 := link.log;
    var rx := SendHarmless(link, Flush(), state.pushed, epoch, snapshot);
    ContinuesTwice(log, log1, link.log, SnapshotRequest(), Flush());
    if rx[0] != TELEMETRY_MAGIC {
      return;
    }
    state.snapshot := Some(DecodeSnapshot(rx).value);
    PolledSnapshotIsSound(asked.events, link.d);
    SteadyPolled(link.d, state.pushed, epoch, snapshot, state.snapshot);
  }

  lemma ReplyDecodes(events: seq<Event>)
    ensures SnapshotReply(events)[0] == TELEMETRY_MAGIC
    ensures DecodeSnapshot(SnapshotReply(events)) == Ok(Response(SnapRegisters(events)))
  {
    SnapshotFits(events);
    hide Response, SnapRegisters, DecodeSnapshot;
    SnapshotRoundTrip(Response(SnapRegisters(events)));
  }

  lemma PolledSnapshotIsSound(events: seq<Event>, d: Dev)
    requires forall e <- events :: e in d.events
    ensures SoundSnapshot(d, Some(Response(SnapRegisters(events))))
  {
    SnapshotFits(events);
    SnapshotKeyIsCounted(events);
    hide SnapRegisters;
  }

  lemma SteadyPolled(d: Dev, pushed: seq<PushedRule>, epoch: nat, was: Option<SnapResponse>, now: Option<SnapResponse>)
    requires Steady(d, pushed, epoch, was) && SoundSnapshot(d, now)
    ensures Steady(d, pushed, epoch, now)
  {
    hide Settled, SoundSnapshot, AllSeen;
  }

  predicate Triggers(s: Option<SnapResponse>, trigger: int, pushed: seq<PushedRule>) {
    && s.Some? && s.value.top1Count >= trigger && s.value.top1Key != 0
    && forall p <- pushed :: p.src != s.value.top1Key
  }

  /** When some source reached the trigger in the window that has just ended, the poll of that window
      pushes, unless its top source is 0.0.0.0 or has been pushed before. */
  lemma {:induction false} HeavySourceTriggers(es: seq<Event>, x: Ip, trigger: nat, pushed: seq<PushedRule>)
    requires 0 < trigger <= Min(Times(Window(es), x), C.CMS_MAX)
    ensures var s := Response(SnapRegisters(es + [Tick]));
      && s.top1Key < TWO32 && (s.top1Key as Ip) in Window(es)
      && (Triggers(Some(s), trigger, pushed) <==> s.top1Key != 0 && forall p <- pushed :: p.src != s.top1Key)
  {
    hide SnapRegisters, T.After, Times, Window;
    SeenSourceInWindow(Window(es), x);
    T.TopSandwich(es, x);
    LatchedAtTick(es);
  }

  lemma SeenSourceInWindow(h: seq<Ip>, x: Ip)
    ensures Times(h, x) > 0 <==> x in h
  {
  }

  /** Push a block rule for the polled top source, once per source. */
  method MaybePushRule(link: Link, state: DemoState, trigger: int) returns (done: bool)
    requires link.Valid() && Steady(link.d, state.pushed, state.ruleEpoch, state.snapshot)
    requires ProperPushes(state.pushed)
    modifies link, state`pushed
    ensures done <==> Triggers(state.snapshot, trigger, old(state.pushed))
    ensures link.Valid() && Steady(link.d, state.pushed, state.ruleEpoch, state.snapshot) && ProperPushes(state.pushed)
    ensures if done then
        var src := state.snapshot.value.top1Key;
        && src < TWO32 && state.pushed == old(state.pushed) + [PushedRule(src, LookupIdx(src))]
        && Continues(old(link.log), link.log,
                     [EncodeRuleWrite(LookupIdx(src), BlockRule(src, state.ruleEpoch)), Flush()])
      else state.pushed == old(state.pushed) && link.log == old(link.log)
  {
    var s := state.snapshot;
    if s.None? || s.value.top1Count < trigger {
      return false;
    }
    if s.value.top1Key == 0 {
      return false;
    }
    if exists p <- state.pushed :: p.src == s.value.top1Key {
      return false;
    }
    assert s.value.top1Key < TWO32;
    ProperPush(state.pushed, s.value.top1Key);
    hide Steady, ProperPushes, LookupIdx, Respond, EncodeRuleWrite, Dev.Valid, Consecutive, DevAfter;
    var ack := PushRule(link, state, s.value.top1Key);
    return true;
  }

  lemma ProperPush(pushed: seq<PushedRule>, src: Ip)
    requires ProperPushes(pushed) && src != 0 && forall p <- pushed :: p.src != src
    ensures ProperPushes(pushed + [PushedRule(src, LookupIdx(src))])
  {
    hide LookupIdx;
  }

  /** Write the block rule at the source's lookup index, consume the ack and record the push. */
  method PushRule(link: Link, state: DemoState, src: Ip) returns (ack: Frame)
    requires link.Valid() && Steady(link.d, state.pushed, state.ruleEpoch, state.snapshot)
    requires state.snapshot.Some? && src == state.snapshot.value.top1Key && src != 0
    modifies link, state`pushed
    ensures link.Valid() && Steady(link.d, state.pushed, state.ruleEpoch, state.snapshot)
    ensures state.pushed == old(state.pushed) + [PushedRule(src, LookupIdx(src))] && ack == Ack(OP_RULE_W)
    ensures Continues(old(link.log), link.log,
                      [EncodeRuleWrite(LookupIdx(src), BlockRule(src, state.ruleEpoch)), Flush()])
  {
    hide Steady, Respond, TicksOf, LookupIdx, EncodeRuleWrite, Consecutive, DevAfter, Continues, Dev.Valid, Ack;
    var idx := LookupIdx(src);
    ghost var d, log := link.d, link.log;
    var before := link.SendFrame(EncodeRuleWrite(idx, BlockRule(src, state.ruleEpoch)));
    PushKeepsSteady(d, link.ticks(|log|), src, link.d, state.pushed, state.ruleEpoch, state.snapshot);
    ghost var log1 := link.log;
    ack := SendHarmless(link, Flush(), state.pushed + [PushedRule(src, idx)], state.ruleEpoch, state.snapshot);
    ContinuesTwice(log, log1, link.log, EncodeRuleWrite(idx, BlockRule(src, state.ruleEpoch)), Flush());
    state.pushed := state.pushed + [PushedRule(src, idx)];
  }

  function BlockRule(src: Ip, epoch: nat): Rule {
    Rule(src, PUSH_ACTION, PUSH_SEVERITY, epoch)
  }

  lemma PushKeepsSteady(d: Dev, ticks: nat, src: Ip, n: Dev, pushed: seq<PushedRule>, epoch: nat,
                         s: Option<SnapResponse>)
    requires Steady(d, pushed, epoch, s) && s.Some? && src != 0 && src == s.value.top1Key
    requires n == Respond(TicksOf(d, ticks), EncodeRuleWrite(LookupIdx(src), BlockRule(src, epoch)))
    ensures Steady(n, pushed + [PushedRule(src, LookupIdx(src))], epoch, s) && n.tx == Ack(OP_RULE_W)
  {
    hide TicksOf, Respond, LookupIdx, DecodeRule, EncodeRuleWrite, Ack;
    var m := TicksOf(d, ticks);
    TicksKeep(d, ticks);
    OnRuleWrite(m, LookupIdx(src), BlockRule(src, epoch), n);
    var next := pushed + [PushedRule(src, LookupIdx(src))];
    assert Init(next) == pushed;
  }

  // ----- what the pushes of a whole run are, and what they do -----

  /** The snapshot that a poll answered by this entry returns. */
  function SnapshotOf(e: Entry): (s: SnapResponse)
    ensures s.top1Key < TWO32
  {
    SnapshotFits(e.before.events);
    Response(SnapRegisters(e.before.events))
  }

  /** The controller's policy on one polled snapshot. */
  function Decide(pushed: seq<PushedRule>, s: SnapResponse, trigger: int): seq<PushedRule>
    requires s.top1Key < TWO32
  {
    if Triggers(Some(s), trigger, pushed) then pushed + [PushedRule(s.top1Key, LookupIdx(s.top1Key))] else pushed
  }

  /** The pushes that the polls of a log call for: one for each polled window whose top source meets
      the trigger, is not 0.0.0.0 and has not been pushed before; none otherwise. */
  function Policy(log: seq<Entry>, trigger: int): seq<PushedRule> {
    if log == [] then []
    else if Last(log).frame[16] == OP_SNAPSHOT then Decide(Policy(Init(log), trigger), SnapshotOf(Last(log)), trigger)
    else Policy(Init(log), trigger)
  }

  function SnapshotsIn(log: seq<Entry>): nat {
    if log == [] then 0 else SnapshotsIn(Init(log)) + if Last(log).frame[16] == OP_SNAPSHOT then 1 else 0
  }

  function RuleWrites(log: seq<Entry>): nat {
    if log == [] then 0 else RuleWrites(Init(log)) + if Last(log).frame[16] == OP_RULE_W then 1 else 0
  }

  function PushFrame(p: PushedRule, epoch: nat): Frame {
    EncodeRuleWrite(p.idx, BlockRule(p.src, epoch))
  }

  /** The rule writes of a log are the pushes in order, each at its own index; nothing else that was
      sent can change rules or thresholds. */
  ghost predicate WritesArePushes(log: seq<Entry>, pushed: seq<PushedRule>, epoch: nat)
    decreases |log|
  {
    if log == [] then pushed == []
    else if Last(log).frame[16] == OP_RULE_W then
      && pushed != [] && Last(pushed).idx == LookupIdx(Last(pushed).src)
      && Last(log).frame == PushFrame(Last(pushed), epoch)
      && WritesArePushes(Init(log), Init(pushed), epoch)
    else
      Harmless(Last(log).frame) && WritesArePushes(Init(log), pushed, epoch)
  }

  lemma ContinuesByOne(log: seq<Entry>, log': seq<Entry>, f: Frame)
    requires Continues(log, log', [f])
    ensures log' != [] && Init(log') == log && Last(log').frame == f
  {
    assert log'[|log| + 0].frame == [f][0];
  }

  lemma ContinuesByTwo(log: seq<Entry>, log': seq<Entry>, f: Frame, g: Frame) returns (mid: seq<Entry>)
    requires Continues(log, log', [f, g])
    ensures Continues(log, mid, [f]) && Continues(mid, log', [g]) && mid == log'[..|log| + 1]
  {
    mid := log'[..|log| + 1];
    assert log'[|log| + 0].frame == [f, g][0] && log'[|log| + 1].frame == [f, g][1];
    assert mid[..|log|] == log'[..|log|];
  }

  lemma HarmlessIsNoWrite(f: Frame)
    requires Harmless(f)
    ensures f[16] != OP_RULE_W
    ensures f[16] == OP_CLASSIFY ==> f[16] != OP_SNAPSHOT
    ensures Harmless(Flush()) && Harmless(SnapshotRequest()) && SnapshotRequest()[16] == OP_SNAPSHOT
    ensures Flush()[16] == OP_CLASSIFY
  {
    assert EncodeThresholdRead(THR_RULE_EPOCH)[16] == OP_THRESH_R;
  }

  /** A harmless frame that polls nothing leaves pushes and policy alone. */
  lemma {:induction false} PlainFrame(log: seq<Entry>, log': seq<Entry>, f: Frame, pushed: seq<PushedRule>,
      epoch: nat, trigger: int)
    requires Continues(log, log', [f]) && Harmless(f) && f[16] != OP_SNAPSHOT
    ensures WritesArePushes(log, pushed, epoch) ==> WritesArePushes(log', pushed, epoch)
    ensures Policy(log', trigger) == Policy(log, trigger) && SnapshotsIn(log') == SnapshotsIn(log)
  {
    hide Decide, Harmless, PushFrame;
    ContinuesByOne(log, log', f);
    HarmlessIsNoWrite(f);
  }

  /** A poll: the policy decides on its snapshot. */
  lemma {:induction false} PollExchange(log: seq<Entry>, log': seq<Entry>, pushed: seq<PushedRule>, epoch: nat,
      trigger: int)
    requires Continues(log, log', [SnapshotRequest(), Flush()]) && WritesArePushes(log, pushed, epoch)
    ensures WritesArePushes(log', pushed, epoch) && SnapshotsIn(log') == SnapshotsIn(log) + 1
    ensures Policy(log', trigger) == Decide(Policy(log, trigger), SnapshotOf(log'[|log|]), trigger)
  {
    hide Decide, Harmless, PushFrame, SnapshotOf;
    HarmlessIsNoWrite(Flush());
    var mid := ContinuesByTwo(log, log', SnapshotRequest(), Flush());
    ContinuesByOne(log, mid, SnapshotRequest());
    PlainFrame(mid, log', Flush(), pushed, epoch, trigger);
  }

  /** A push: one more rule write, and the policy is met. */
  lemma {:induction false} PushExchange(log: seq<Entry>, log': seq<Entry>, pushed: seq<PushedRule>, p: PushedRule,
                                      epoch: nat, trigger: int)
    requires Continues(log, log', [PushFrame(p, epoch), Flush()]) && WritesArePushes(log, pushed, epoch)
    requires p.idx == LookupIdx(p.src)
    ensures WritesArePushes(log', pushed + [p], epoch)
    ensures Policy(log', trigger) == Policy(log, trigger) && SnapshotsIn(log') == SnapshotsIn(log)
  {
    assert PushFrame(p, epoch)[16] == OP_RULE_W;
    hide Decide, Harmless, PushFrame, SnapshotOf, LookupIdx;
    HarmlessIsNoWrite(Flush());
    var mid := ContinuesByTwo(log, log', PushFrame(p, epoch), Flush());
    ContinuesByOne(log, mid, PushFrame(p, epoch));
    assert Init(pushed + [p]) == pushed;
    PlainFrame(mid, log', Flush(), pushed + [p], epoch, trigger);
  }

  lemma {:induction false} WritesOfPrefix(log: seq<Entry>, pushed: seq<PushedRule>, epoch: nat, t: nat)
    requires WritesArePushes(log, pushed, epoch) && t <= |log|
    ensures RuleWrites(log[..t]) <= |pushed| && WritesArePushes(log[..t], pushed[..RuleWrites(log[..t])], epoch)
    decreases |log|
  {
    hide Harmless, PushFrame, LookupIdx;
    if t == |log| {
      assert log[..t] == log;
      AllWrites(log, pushed, epoch);
      assert pushed[..|pushed|] == pushed;
    } else {
      assert Init(log)[..t] == log[..t];
      if Last(log).frame[16] == OP_RULE_W {
        WritesOfPrefix(Init(log), Init(pushed), epoch, t);
        var n := RuleWrites(log[..t]);
        assert Init(pushed)[..n] == pushed[..n];
      } else {
        WritesOfPrefix(Init(log), pushed, epoch, t);
      }
    }
  }

  lemma {:induction false} AllWrites(log: seq<Entry>, pushed: seq<PushedRule>, epoch: nat)
    requires WritesArePushes(log, pushed, epoch)
    ensures RuleWrites(log) == |pushed|
    decreases |log|
  {
    hide Harmless, PushFrame, LookupIdx;
    if log == [] {
    } else if Last(log).frame[16] == OP_RULE_W {
      AllWrites(Init(log), Init(pushed), epoch);
    } else {
      AllWrites(Init(log), pushed, epoch);
    }
  }

  lemma PushKeepsSettled(d: Dev, ticks: nat, p: PushedRule, n: Dev, pushed: seq<PushedRule>, epoch: nat)
    requires Settled(d, pushed, epoch) && p.idx == LookupIdx(p.src)
    requires n == Respond(TicksOf(d, ticks), PushFrame(p, epoch))
    ensures Settled(n, pushed + [p], epoch)
  {
    hide TicksOf, Respond, LookupIdx, DecodeRule, EncodeRuleWrite, Ack;
    var m := TicksOf(d, ticks);
    TicksKeep(d, ticks);
    OnRuleWrite(m, p.idx, BlockRule(p.src, epoch), n);
    assert Init(pushed + [p]) == pushed;
  }

  /** After any log of such frames the device's store holds the pushes. */
  lemma {:induction false} LogHoldsPushes(first: Dev, ticks: nat -> nat, log: seq<Entry>, pushed: seq<PushedRule>,
                                          epoch: nat)
    requires Consecutive(first, ticks, log) && WritesArePushes(log, pushed, epoch) && Settled(first, [], epoch)
    ensures Settled(DevAfter(first, log, |log|), pushed, epoch)
    decreases |log|
  {
    hide Respond, TicksOf, VerdictOn, Settled, Harmless, PushFrame, LookupIdx;
    if log == [] {
    } else {
      var n := |log| - 1;
      assert Follows(first, ticks, log, n);
      ConsecutivePrefix(first, ticks, log, n);
      var d := DevAfter(first, log, n);
      if Last(log).frame[16] == OP_RULE_W {
        LogHoldsPushes(first, ticks, Init(log), Init(pushed), epoch);
        PushKeepsSettled(d, ticks(n), Last(pushed), Last(log).after, Init(pushed), epoch);
        assert pushed == Init(pushed) + [Last(pushed)];
      } else {
        LogHoldsPushes(first, ticks, Init(log), pushed, epoch);
        HarmlessKeeps(d, ticks(n), Last(log).frame, Last(log).after);
        SettledKept(d, Last(log).after, pushed, epoch);
      }
    }
  }

  /** The rule bit of the t-th transfer's verdict, for a nonzero source, says whether that source was the
      latest push at its index among the pushes made before the transfer. */
  ghost predicate RuleBitDue(log: seq<Entry>, pushed: seq<PushedRule>, t: nat)
    requires t < |log| && RuleWrites(log[..t]) <= |pushed|
  {
    var src := SourceOf(log[t].frame);
    src != 0 ==>
      (log[t].verdict.ruleMatch <==> LatestAt(pushed[..RuleWrites(log[..t])], LookupIdx(src)) == Some(src))
  }

  lemma {:induction false} RuleBitsAreDue(first: Dev, ticks: nat -> nat, log: seq<Entry>, pushed: seq<PushedRule>,
      epoch: nat, t: nat)
    requires Consecutive(first, ticks, log) && WritesArePushes(log, pushed, epoch) && Settled(first, [], epoch)
      && t < |log|
    ensures RuleWrites(log[..t]) <= |pushed| && RuleBitDue(log, pushed, t)
  {
    hide Respond, TicksOf, VerdictOn, LookupIdx, SourceOf, DecodeRule, RuleWrites, LatestAt, HoldsPushes;
    WritesOfPrefix(log, pushed, epoch, t);
    ConsecutivePrefix(first, ticks, log, t);
    LogHoldsPushes(first, ticks, log[..t], pushed[..RuleWrites(log[..t])], epoch);
    assert Follows(first, ticks, log, t);
    var d, e := DevAfter(first, log, t), log[t];
    TicksKeep(d, ticks(t));
    SettledKept(d, e.before, pushed[..RuleWrites(log[..t])], epoch);
    if SourceOf(e.frame) != 0 {
      VerdictReportsLatest(e.before, e.frame, pushed[..RuleWrites(log[..t])]);
    }
  }

  // ----- the main loop -----

  /** The r-th main-loop read came back while schedule[r] was sent; it is the verdict on the frame
      sent just before, which is the previous scheduled frame unless a flush came in between. */
  ghost predicate ReplyOk(log: seq<Entry>, schedule: seq<Frame>, rs: seq<Read>, r: nat)
    requires r < |rs| <= |schedule|
  {
    var at := rs[r].at;
    && 0 < at < |log| && log[at].frame == schedule[r]
    && rs[r].verdict == log[at - 1].verdict
    && log[at - 1].frame == if r > 0 && rs[r - 1].at == at - 1 then schedule[r - 1] else Flush()
  }

  ghost predicate RepliesOk(log: seq<Entry>, schedule: seq<Frame>, rs: seq<Read>) {
    |rs| <= |schedule| && forall r :: 0 <= r < |rs| ==> ReplyOk(log, schedule, rs, r)
  }

  /** What was sent last: the frame of the last read, or the flush of a poll or push after it. */
  ghost predicate SentLast(log: seq<Entry>, schedule: seq<Frame>, rs: seq<Read>) {
    && |rs| <= |schedule| && log != []
    && Last(log).frame == if rs != [] && Last(rs).at == |log| - 1 then schedule[|rs| - 1] else Flush()
  }

  ghost function VerdictsIn(rs: seq<Read>): seq<Verdict> {
    if rs == [] then [] else VerdictsIn(Init(rs)) + [Last(rs).verdict]
  }

  lemma RepliesStable(log: seq<Entry>, log': seq<Entry>, schedule: seq<Frame>, rs: seq<Read>)
    requires RepliesOk(log, schedule, rs) && |log| <= |log'| && log'[..|log|] == log
    ensures RepliesOk(log', schedule, rs)
  {
    forall r | 0 <= r < |rs|
      ensures ReplyOk(log', schedule, rs, r)
    {
      assert ReplyOk(log, schedule, rs, r);
      assert log'[..|log|][rs[r].at] == log'[rs[r].at] && log'[..|log|][rs[r].at - 1] == log'[rs[r].at - 1];
    }
  }

  lemma RepliesExtended(log: seq<Entry>, log': seq<Entry>, schedule: seq<Frame>, rs: seq<Read>)
    requires RepliesOk(log, schedule, rs) && |rs| < |schedule| && SentLast(log, schedule, rs)
    requires Continues(log, log', [schedule[|rs|]])
    ensures var rs' := rs + [Read(|log|, Last(log).verdict)];
      RepliesOk(log', schedule, rs') && SentLast(log', schedule, rs')
  {
    var rs' := rs + [Read(|log|, Last(log).verdict)];
    RepliesStable(log, log', schedule, rs);
    assert log'[|log| + 0].frame == [schedule[|rs|]][0];
    assert log'[..|log|][|log| - 1] == log'[|log| - 1];
    forall r | 0 <= r < |rs'|
      ensures ReplyOk(log', schedule, rs', r)
    {
      if r < |rs| {
        assert ReplyOk(log', schedule, rs, r);
      }
    }
  }

  /** An exchange of two frames, the second a flush, keeps the reads and leaves the flush sent last. */
  lemma ExchangeKeeps(log: seq<Entry>, log': seq<Entry>, f: Frame, schedule: seq<Frame>, rs: seq<Read>)
    requires RepliesOk(log, schedule, rs) && Continues(log, log', [f, Flush()])
    ensures RepliesOk(log', schedule, rs) && SentLast(log', schedule, rs)
  {
    RepliesStable(log, log', schedule, rs);
    assert log'[|log| + 1].frame == [f, Flush()][1];
    if rs != [] {
      assert ReplyOk(log, schedule, rs, |rs| - 1);
    }
  }

  lemma LastOfAppend<X>(s: seq<X>, x: X)
    ensures LastOf(LastOf(s, VERDICTS_KEPT) + [x], VERDICTS_KEPT) == LastOf(s + [x], VERDICTS_KEPT)
    ensures |LastOf(s, VERDICTS_KEPT)| <= VERDICTS_KEPT
  {
  }

  /** How far the loop has come: its reads, the recent verdicts and the number of transfers. */
  ghost predicate Progress(log: seq<Entry>, schedule: seq<Frame>, replies: seq<Read>, recent: seq<Verdict>,
                           framesSent: nat, pushes: nat, polls: nat)
  {
    && RepliesOk(log, schedule, replies) && SentLast(log, schedule, replies)
    && framesSent == |replies|
    && recent == LastOf(VerdictsIn(replies), VERDICTS_KEPT)
    && |log| == 2 + framesSent + 2 * polls + 2 * pushes
  }

  lemma ProgressShape(log: seq<Entry>, schedule: seq<Frame>, replies: seq<Read>, recent: seq<Verdict>,
                      framesSent: nat, pushes: nat, polls: nat)
    requires Progress(log, schedule, replies, recent, framesSent, pushes, polls)
    requires forall f <- schedule :: f[16] == OP_CLASSIFY
    ensures log != [] && Last(log).frame[16] == OP_CLASSIFY && |recent| <= VERDICTS_KEPT
  {
    LastOfAppend(VerdictsIn(replies), Last(log).verdict);
  }

  lemma ProgressRead(log: seq<Entry>, log': seq<Entry>, schedule: seq<Frame>, replies: seq<Read>,
                     recent: seq<Verdict>, framesSent: nat, pushes: nat, polls: nat)
    requires Progress(log, schedule, replies, recent, framesSent, pushes, polls) && framesSent < |schedule|
    requires Continues(log, log', [schedule[framesSent]])
    ensures var v := Last(log).verdict;
      Progress(log', schedule, replies + [Read(|log|, v)], LastOf(recent + [v], VERDICTS_KEPT), framesSent + 1,
               pushes, polls)
  {
    RepliesExtended(log, log', schedule, replies);
    LastOfAppend(VerdictsIn(replies), Last(log).verdict);
    assert Init(replies + [Read(|log|, Last(log).verdict)]) == replies;
  }

  lemma ProgressExchange(log: seq<Entry>, log': seq<Entry>, f: Frame, schedule: seq<Frame>, replies: seq<Read>,
                         recent: seq<Verdict>, framesSent: nat, pushes: nat, polls: nat, pushes': nat, polls': nat)
    requires Progress(log, schedule, replies, recent, framesSent, pushes, polls)
    requires Continues(log, log', [f, Flush()]) && pushes' + polls' == pushes + polls + 1
    ensures Progress(log', schedule, replies, recent, framesSent, pushes', polls')
  {
    ExchangeKeeps(log, log', f, schedule, replies);
  }

  // ----- the same on the frames sent: when a rule is written, and what is in it -----

  predicate IsRuleWrite(f: Frame) {
    f[16] == 0x12
  }

  /** Two transfers ago a snapshot was requested whose window's top source met the trigger, is not 0.0.0.0 and
      has not been written in any rule before. */
  ghost predicate PushDue(log: seq<Entry>, t: nat, trigger: int)
    requires t <= |log|
  {
    && t >= 2 && log[t - 2].frame[16] == 0x02
    && var w := T.After(log[t - 2].before.events).snapshot;
      && w.Some? && w.value.top1Count >= trigger && w.value.top1Key != 0
      && forall u :: 0 <= u < t && IsRuleWrite(log[u].frame) ==> Field(log[u].frame, 2, 4) != w.value.top1Key
  }

  ghost predicate WritesRule(log: seq<Entry>, t: nat) {
    t < |log| && IsRuleWrite(log[t].frame)
  }

  /** A rule is written exactly when one is due. */
  ghost predicate PushesWhenDue(log: seq<Entry>, trigger: int) {
    forall t :: 0 <= t <= |log| ==> (WritesRule(log, t) <==> PushDue(log, t, trigger))
  }

  /** The t-th frame blocks the top source of the window polled before it: the source at the index that its
      hash gives, action 5 (101 in binary), severity 3, and the rule epoch. */
  ghost predicate BlocksTop(log: seq<Entry>, t: nat, epoch: nat)
    requires 2 <= t < |log|
  {
    var f, w := log[t].frame, T.After(log[t - 2].before.events).snapshot;
    && w.Some? && Field(f, 2, 4) == w.value.top1Key && Field(f, 0, 2) == LookupIdx(w.value.top1Key)
    && f[6] == 5 && f[7] == 3 && f[8] == epoch % 256
  }

  /** Every rule write is such a frame. */
  ghost predicate WritesBlockTop(log: seq<Entry>, epoch: nat) {
    forall t :: WritesRule(log, t) ==> t >= 2 && BlocksTop(log, t, epoch)
  }

  /** A push is of a source that really sent that many packets in the window polled, when that window was
      clean and the source alone in some row. */
  lemma PushedSourceIsHeavy(log: seq<Entry>, t: nat, trigger: int, j: nat)
    requires t <= |log| && PushDue(log, t, trigger) && Start(log[t - 2].before.events) != []
    requires var closed := Init(Start(log[t - 2].before.events));
      && C.After(Start(closed)).Clean()
      && j < C.ROWS && T.FreeIn(Window(closed), T.After(closed).top1Key, j)
    ensures var es := log[t - 2].before.events;
      && T.After(es).snapshot.Some?
      && Times(Window(Init(Start(es))), T.After(es).snapshot.value.top1Key) >= trigger
  {
    hide T.After, C.After, Times, Window, T.FreeIn;
    T.LatchedCountIsTrue(log[t - 2].before.events, j);
  }

  lemma PrefixDue(log: seq<Entry>, log': seq<Entry>, t: nat, trigger: int)
    requires |log| <= |log'| && log'[..|log|] == log && t <= |log|
    ensures PushDue(log', t, trigger) <==> PushDue(log, t, trigger)
    ensures t < |log| ==> (WritesRule(log', t) <==> WritesRule(log, t)) && log'[t] == log[t]
  {
    forall u | 0 <= u < |log|
      ensures log'[u] == log[u]
    {
      assert log'[..|log|][u] == log'[u];
    }
  }

  /** A frame that writes no rule, sent when none is due, leaves none due unless it follows a request. */
  lemma DuePlain(log: seq<Entry>, log': seq<Entry>, f: Frame, trigger: int)
    requires Continues(log, log', [f]) && PushesWhenDue(log, trigger) && !IsRuleWrite(f)
    ensures forall t :: 0 <= t <= |log| ==> (WritesRule(log', t) <==> PushDue(log', t, trigger))
    ensures (log != [] && Last(log).frame[16] == 0x02) || PushesWhenDue(log', trigger)
  {
    hide PushDue;
    ContinuesByOne(log, log', f);
    forall t | 0 <= t <= |log|
      ensures WritesRule(log', t) <==> PushDue(log', t, trigger)
    {
      PrefixDue(log, log', t, trigger);
    }
    NotAfterRequest(log', trigger);
    if log != [] {
      PrefixDue(log, log', |log| - 1, trigger);
    }
  }

  lemma NotAfterRequest(log: seq<Entry>, trigger: int)
    ensures PushDue(log, |log|, trigger) ==> |log| >= 2 && log[|log| - 2].frame[16] == 0x02
  {
  }

  /** The block rule's bytes. */
  lemma PushFrameBytes(p: PushedRule, epoch: nat)
    requires p.idx == LookupIdx(p.src)
    ensures var f := PushFrame(p, epoch);
      && IsRuleWrite(f) && Field(f, 2, 4) == p.src && Field(f, 0, 2) == LookupIdx(p.src)
      && f[6] == 5 && f[7] == 3 && f[8] == epoch % 256
  {
    var f, r := PushFrame(p, epoch), BlockRule(p.src, epoch);
    RuleWriteFields(p.idx, r);
    Pow256Values();
    BeRoundTrip(p.src, 4);
    hide Be, FromBe, LookupIdx;
    assert f[2..11] == EncodeRule(r);
    assert f[2..6] == EncodeRule(r)[..4] == Be(p.src, 4);
    assert f[6] == EncodeRule(r)[4] && f[7] == EncodeRule(r)[5] && f[8] == EncodeRule(r)[6];
  }

  /** The sources written in rules are those pushed. */
  lemma {:induction false} WrittenSources(log: seq<Entry>, pushed: seq<PushedRule>, epoch: nat, src: Ip)
    requires WritesArePushes(log, pushed, epoch)
    ensures (exists p <- pushed :: p.src == src) <==>
      exists u :: 0 <= u < |log| && IsRuleWrite(log[u].frame) && Field(log[u].frame, 2, 4) == src
    decreases |log|
  {
    hide Harmless, PushFrame, LookupIdx, Field;
    if log == [] {
    } else {
      var was, n := Init(log), |log| - 1;
      assert forall u :: 0 <= u < n ==> was[u] == log[u];
      if Last(log).frame[16] == OP_RULE_W {
        WrittenSources(was, Init(pushed), epoch, src);
        PushFrameBytes(Last(pushed), epoch);
        assert forall p :: p in pushed <==> p in Init(pushed) || p == Last(pushed);
        assert IsRuleWrite(log[n].frame) && Field(log[n].frame, 2, 4) == Last(pushed).src;
      } else {
        WrittenSources(was, pushed, epoch, src);
      }
    }
  }

  /** What a poll leaves due is what the controller's test says. */
  lemma {:induction false} DueAfterPoll(log: seq<Entry>, log1: seq<Entry>, pushed: seq<PushedRule>, epoch: nat,
      trigger: int)
    requires PushesWhenDue(log, trigger) && WritesArePushes(log1, pushed, epoch)
    requires log == [] || Last(log).frame[16] != 0x02
    requires Continues(log, log1, [SnapshotRequest(), Flush()])
    ensures forall t :: 0 <= t < |log1| ==> (WritesRule(log1, t) <==> PushDue(log1, t, trigger))
    ensures PushDue(log1, |log1|, trigger) <==> Triggers(Some(SnapshotOf(log1[|log|])), trigger, pushed)
  {
    HarmlessIsNoWrite(Flush());
    var mid := ContinuesByTwo(log, log1, SnapshotRequest(), Flush());
    DuePlain(log, mid, SnapshotRequest(), trigger);
    DuePlain(mid, log1, Flush(), trigger);
    assert log1[|log| + 0].frame == [SnapshotRequest(), Flush()][0];
    DueIsTriggers(log1, pushed, epoch, trigger);
  }

  lemma {:induction false} DueIsTriggers(log1: seq<Entry>, pushed: seq<PushedRule>, epoch: nat, trigger: int)
    requires WritesArePushes(log1, pushed, epoch) && |log1| >= 2 && log1[|log1| - 2].frame[16] == 0x02
    ensures PushDue(log1, |log1|, trigger) <==> Triggers(Some(SnapshotOf(log1[|log1| - 2])), trigger, pushed)
  {
    hide WritesArePushes, Field, T.After, SnapshotOf, Triggers;
    var e := log1[|log1| - 2];
    SnapshotIsLatched(e);
    WrittenSources(log1, pushed, epoch, SnapshotOf(e).top1Key);
    TriggersMeans(SnapshotOf(e), trigger, pushed);
  }

  lemma SnapshotIsLatched(e: Entry)
    ensures var s, w := SnapshotOf(e), T.After(e.before.events).snapshot;
      if w.Some? then s.top1Count == w.value.top1Count && s.top1Key == w.value.top1Key else s.top1Key == 0
  {
    hide T.After;
  }

  lemma TriggersMeans(s: SnapResponse, trigger: int, pushed: seq<PushedRule>)
    ensures Triggers(Some(s), trigger, pushed) <==>
      s.top1Count >= trigger && s.top1Key != 0 && !exists p <- pushed :: p.src == s.top1Key
  {
  }

  /** The rule write that is due, and its flush. */
  lemma DuePush(log1: seq<Entry>, log2: seq<Entry>, f: Frame, trigger: int)
    requires forall t :: 0 <= t < |log1| ==> (WritesRule(log1, t) <==> PushDue(log1, t, trigger))
    requires PushDue(log1, |log1|, trigger) && IsRuleWrite(f) && Continues(log1, log2, [f, Flush()])
    requires log1 != [] && Last(log1).frame == Flush()
    ensures PushesWhenDue(log2, trigger)
  {
    hide PushDue;
    HarmlessIsNoWrite(Flush());
    var mid := ContinuesByTwo(log1, log2, f, Flush());
    ContinuesByOne(log1, mid, f);
    forall t | 0 <= t <= |mid|
      ensures WritesRule(mid, t) <==> PushDue(mid, t, trigger)
    {
      if t <= |log1| {
        PrefixDue(log1, mid, t, trigger);
      } else {
        PrefixDue(log1, mid, |log1| - 1, trigger);
        NotAfterRequest(mid, trigger);
      }
    }
    DuePlain(mid, log2, Flush(), trigger);
  }

  /** The pushes are what the policy calls for, and the log's rule writes. */
  ghost predicate Scripted(log: seq<Entry>, pushed: seq<PushedRule>, epoch: nat, trigger: int, polls: nat) {
    && WritesArePushes(log, pushed, epoch) && pushed == Policy(log, trigger) && SnapshotsIn(log) == polls
    && PushesWhenDue(log, trigger) && WritesBlockTop(log, epoch) && (log == [] || Last(log).frame[16] != 0x02)
  }

  lemma BlocksStay(log: seq<Entry>, log': seq<Entry>, epoch: nat)
    requires WritesBlockTop(log, epoch) && |log| <= |log'| && log'[..|log|] == log
    requires forall t :: |log| <= t < |log'| ==> !IsRuleWrite(log'[t].frame)
    ensures WritesBlockTop(log', epoch)
  {
    forall t: nat | WritesRule(log', t)
      ensures t >= 2 && BlocksTop(log', t, epoch)
    {
      assert log'[..|log|][t] == log'[t] == log[t];
      assert WritesRule(log, t);
      assert log'[..|log|][t - 2] == log'[t - 2];
    }
  }

  /** The push after a poll blocks the top source polled. */
  lemma BlocksPush(log1: seq<Entry>, log2: seq<Entry>, p: PushedRule, epoch: nat)
    requires WritesBlockTop(log1, epoch) && Continues(log1, log2, [PushFrame(p, epoch), Flush()]) && |log1| >= 2
    requires p.idx == LookupIdx(p.src)
    requires var w := T.After(log1[|log1| - 2].before.events).snapshot; w.Some? && w.value.top1Key == p.src
    ensures WritesBlockTop(log2, epoch)
  {
    hide T.After, LookupIdx, PushFrame, Field;
    HarmlessIsNoWrite(Flush());
    PushFrameBytes(p, epoch);
    var n := |log1|;
    assert log2[n + 0].frame == [PushFrame(p, epoch), Flush()][0];
    assert log2[n + 1].frame == [PushFrame(p, epoch), Flush()][1];
    forall t: nat | WritesRule(log2, t)
      ensures t >= 2 && BlocksTop(log2, t, epoch)
    {
      if t < n {
        assert log2[..n][t] == log2[t] == log1[t];
        assert WritesRule(log1, t);
        assert log2[..n][t - 2] == log2[t - 2];
      } else {
        assert t == n;
        assert log2[..n][n - 2] == log2[n - 2];
      }
    }
  }

  lemma ScriptedStart(log: seq<Entry>, f: Frame, epoch: nat, trigger: int)
    requires Continues([], log, [f, Flush()]) && Harmless(f) && f[16] != OP_SNAPSHOT
    ensures Scripted(log, [], epoch, trigger, 0)
  {
    hide Harmless;
    HarmlessIsNoWrite(f);
    var mid := ContinuesByTwo([], log, f, Flush());
    PlainFrame([], mid, f, [], epoch, trigger);
    PlainFrame(mid, log, Flush(), [], epoch, trigger);
    hide PushDue, BlocksTop, WritesArePushes, Policy, SnapshotsIn;
    NotAfterRequest([], trigger);
    assert PushesWhenDue([], trigger);
    DuePlain([], mid, f, trigger);
    ContinuesByOne([], mid, f);
    DuePlain(mid, log, Flush(), trigger);
    ContinuesByOne(mid, log, Flush());
  }

  lemma ScriptedFrame(log: seq<Entry>, log': seq<Entry>, f: Frame, pushed: seq<PushedRule>, epoch: nat, trigger: int,
                      polls: nat)
    requires Scripted(log, pushed, epoch, trigger, polls) && Continues(log, log', [f]) && f[16] == OP_CLASSIFY
    ensures Scripted(log', pushed, epoch, trigger, polls)
  {
    hide WritesArePushes, Policy, SnapshotsIn, PushDue, BlocksTop, PushesWhenDue, WritesBlockTop;
    PlainFrame(log, log', f, pushed, epoch, trigger);
    ContinuesByOne(log, log', f);
    DuePlain(log, log', f, trigger);
    BlocksStay(log, log', epoch);
  }

  /** A poll, and the push that the policy then calls for, if any. */
  lemma ScriptedPoll(log: seq<Entry>, log1: seq<Entry>, log2: seq<Entry>, s: SnapResponse, pushed: seq<PushedRule>,
                     pushed': seq<PushedRule>, epoch: nat, trigger: int, polls: nat)
    requires Scripted(log, pushed, epoch, trigger, polls)
    requires Continues(log, log1, [SnapshotRequest(), Flush()]) && s == SnapshotOf(log1[|log|])
    requires if Triggers(Some(s), trigger, pushed) then
        var p := PushedRule(s.top1Key, LookupIdx(s.top1Key));
        pushed' == pushed + [p] && Continues(log1, log2, [PushFrame(p, epoch), Flush()])
      else pushed' == pushed && log2 == log1
    ensures Scripted(log2, pushed', epoch, trigger, polls + 1)
  {
    hide WritesArePushes, Policy, SnapshotsIn, PushFrame, LookupIdx, SnapshotOf, Triggers, Continues, PushDue,
      BlocksTop, WritesBlockTop, T.After, WritesRule;
    PollExchange(log, log1, pushed, epoch, trigger);
    DueAfterPoll(log, log1, pushed, epoch, trigger);
    PollShape(log, log1, epoch);
    if Triggers(Some(s), trigger, pushed) {
      var p := PushedRule(s.top1Key, LookupIdx(s.top1Key));
      PushExchange(log1, log2, pushed, p, epoch, trigger);
      PushFrameBytes(p, epoch);
      DuePush(log1, log2, PushFrame(p, epoch), trigger);
      LatchedTop(log1[|log|], trigger, pushed);
      BlocksPush(log1, log2, p, epoch);
      EndsInFlush(log1, log2, PushFrame(p, epoch));
    } else {
      NoneWrittenAtEnd(log1, trigger);
    }
  }

  /** A poll's two frames write no rule; the log ends in a flush. */
  lemma PollShape(log: seq<Entry>, log1: seq<Entry>, epoch: nat)
    requires Continues(log, log1, [SnapshotRequest(), Flush()]) && WritesBlockTop(log, epoch)
    ensures WritesBlockTop(log1, epoch) && |log1| == |log| + 2 && Last(log1).frame == Flush()
    ensures Flush()[16] == 0x00
  {
    hide BlocksTop;
    HarmlessIsNoWrite(Flush());
    assert log1[|log| + 0].frame == [SnapshotRequest(), Flush()][0];
    assert log1[|log| + 1].frame == [SnapshotRequest(), Flush()][1];
    BlocksStay(log, log1, epoch);
  }

  lemma EndsInFlush(log1: seq<Entry>, log2: seq<Entry>, f: Frame)
    requires Continues(log1, log2, [f, Flush()])
    ensures log2 != [] && Last(log2).frame == Flush()
  {
    assert log2[|log1| + 1].frame == [f, Flush()][1];
  }

  lemma LatchedTop(e: Entry, trigger: int, pushed: seq<PushedRule>)
    requires Triggers(Some(SnapshotOf(e)), trigger, pushed)
    ensures var w := T.After(e.before.events).snapshot; w.Some? && w.value.top1Key == SnapshotOf(e).top1Key
  {
    hide T.After, SnapshotOf;
    SnapshotIsLatched(e);
  }

  lemma NoneWrittenAtEnd(log: seq<Entry>, trigger: int)
    requires forall t :: 0 <= t < |log| ==> (WritesRule(log, t) <==> PushDue(log, t, trigger))
    requires !PushDue(log, |log|, trigger)
    ensures PushesWhenDue(log, trigger)
  {
    hide PushDue;
  }

  /** The state's own progress. */
  ghost predicate Going(link: Link, state: DemoState, schedule: seq<Frame>, trigger: int, polls: nat)
    reads link, state
  {
    && Scripted(link.log, state.pushed, state.ruleEpoch, trigger, polls)
    && link.Valid() && Steady(link.d, state.pushed, state.ruleEpoch, state.snapshot) && ProperPushes(state.pushed)
    && Progress(link.log, schedule, state.replies, state.recent, state.framesSent, |state.pushed|, polls)
  }

  /** Send a frame while a verdict is pending: the reply decodes to that verdict. */
  method SendForVerdict(link: Link, f: Frame, ghost pushed: seq<PushedRule>, ghost epoch: nat,
                        ghost snapshot: Option<SnapResponse>) returns (v: Verdict)
    requires link.Valid() && Harmless(f) && Steady(link.d, pushed, epoch, snapshot)
    requires link.log != [] && Last(link.log).frame[16] == OP_CLASSIFY
    modifies link
    ensures link.Valid() && Continues(old(link.log), link.log, [f]) && Steady(link.d, pushed, epoch, snapshot)
    ensures v == Last(old(link.log)).verdict && v.valid
  {
    PendingVerdict(link.first, link.ticks, link.log);
    LogIsValid(link.first, link.ticks, link.log, |link.log| - 1);
    hide Steady, DecodeVerdict, Consecutive, DevAfter, Dev.Valid, Continues, Respond;
    var rx := SendHarmless(link, f, pushed, epoch, snapshot);
    v := DecodeVerdict(rx);
  }

  /** One scheduled frame: send it, and record the verdict that comes back. */
  method SendScheduled(link: Link, state: DemoState, schedule: seq<Frame>, ghost trigger: int, ghost polls: nat)
    requires Going(link, state, schedule, trigger, polls) && state.framesSent < |schedule|
    requires forall f <- schedule :: f[16] == OP_CLASSIFY
    modifies link, state`framesSent, state`recent, state`replies
    ensures Going(link, state, schedule, trigger, polls) && state.framesSent == old(state.framesSent) + 1
  {
    ghost var log := link.log;
    var f := schedule[state.framesSent];
    ProgressShape(log, schedule, state.replies, state.recent, state.framesSent, |state.pushed|, polls);
    hide Steady, Progress, ProperPushes, Link.Valid, Dev.Valid, Continues, LastOf, Scripted;
    var v := SendForVerdict(link, f, state.pushed, state.ruleEpoch, state.snapshot);
    ProgressRead(log, link.log, schedule, state.replies, state.recent, state.framesSent, |state.pushed|, polls);
    ScriptedFrame(log, link.log, f, state.pushed, state.ruleEpoch, trigger, polls);
    state.framesSent := state.framesSent + 1;
    if v.valid {
      RecordVerdict(state, v);
    }
    state.replies := state.replies + [Read(|log|, v)];
  }

  /** Poll, then push if the polled top source triggers. */
  method PollAndPush(link: Link, state: DemoState, trigger: int, schedule: seq<Frame>, ghost polls: nat)
    requires Going(link, state, schedule, trigger, polls)
    modifies link, state`snapshot, state`pushed
    ensures Going(link, state, schedule, trigger, polls + 1)
  {
    ghost var log, pushed := link.log, state.pushed;
    hide Steady, Progress, ProperPushes, Link.Valid, Dev.Valid, Continues, Scripted, Triggers, SnapRegisters,
      Response, LookupIdx;
    PollSnapshot(link, state, state.ruleEpoch);
    ProgressExchange(log, link.log, SnapshotRequest(), schedule, state.replies, state.recent, state.framesSent,
                     |pushed|, polls, |pushed|, polls + 1);
    ghost var log1 := link.log;
    var done := MaybePushRule(link, state, trigger);
    if done {
      ghost var src := state.snapshot.value.top1Key;
      ProgressExchange(log1, link.log, PushFrame(PushedRule(src, LookupIdx(src)), state.ruleEpoch), schedule,
                       state.replies, state.recent, state.framesSent, |pushed|, polls + 1, |pushed| + 1, polls + 1);
    }
    ScriptedPoll(log, log1, link.log, state.snapshot.value, pushed, state.pushed, state.ruleEpoch, trigger, polls);
  }

  /** How many of the first k ticks poll: those after the first whose number the period divides. */
  function Polls(k: nat, snapEvery: int): nat {
    if k == 0 then 0
    else Polls(k - 1, snapEvery) + if snapEvery > 0 && k - 1 > 0 && (k - 1) % snapEvery == 0 then 1 else 0
  }

  /** In numbers: one in every snapEvery ticks after the first. */
  lemma {:induction false} PollsInNumbers(k: nat, snapEvery: int)
    ensures Polls(k, snapEvery) == if snapEvery > 0 && k > 0 then (k - 1) / snapEvery else 0
  {
    if k <= 1 {
      assert k == 1 ==> Polls(0, snapEvery) == 0;
    } else {
      PollsInNumbers(k - 1, snapEvery);
      if snapEvery > 0 {
        NextMultiple(k - 2, snapEvery);
      }
    }
  }

  lemma NextMultiple(x: nat, n: int)
    requires n > 0
    ensures (x + 1) / n == x / n + if (x + 1) % n == 0 then 1 else 0
  {
    var q, r := x / n, x % n;
    assert x == q * n + r;
    if r + 1 < n {
      Quotient(q, n, r + 1);
      Remainder(q, n, r + 1);
    } else {
      assert x + 1 == (q + 1) * n + 0;
      Quotient(q + 1, n, 0);
      Remainder(q + 1, n, 0);
    }
  }

  /** The last twelve verdicts, or all when there are fewer. */
  lemma {:induction false} RecentInNumbers(rs: seq<Read>, recent: seq<Verdict>)
    requires recent == LastOf(VerdictsIn(rs), VERDICTS_KEPT)
    ensures |recent| == Min(12, |rs|)
    ensures forall i :: 0 <= i < |recent| ==> recent[i] == rs[|rs| - |recent| + i].verdict
  {
    hide VerdictsIn;
    OnePerRead(rs);
  }

  lemma {:induction false} OnePerRead(rs: seq<Read>)
    ensures |VerdictsIn(rs)| == |rs| && forall r :: 0 <= r < |rs| ==> VerdictsIn(rs)[r] == rs[r].verdict
  {
    if rs == [] {
    } else {
      OnePerRead(Init(rs));
    }
  }

  /** One tick: a scheduled frame, and on every snapEvery-th tick after the first a poll. */
  method OneTick(link: Link, state: DemoState, schedule: seq<Frame>, trigger: int, snapEvery: int, tick: nat)
    requires Going(link, state, schedule, trigger, Polls(tick, snapEvery)) && state.framesSent == tick < |schedule|
    requires forall f <- schedule :: f[16] == OP_CLASSIFY
    modifies link, state`framesSent, state`recent, state`replies, state`snapshot, state`pushed
    ensures Going(link, state, schedule, trigger, Polls(tick + 1, snapEvery)) && state.framesSent == tick + 1
  {
    hide Steady, Progress, Link.Valid, Dev.Valid, Continues, Going;
    SendScheduled(link, state, schedule, trigger, Polls(tick, snapEvery));
    if snapEvery > 0 && tick > 0 && tick % snapEvery == 0 {
      PollAndPush(link, state, trigger, schedule, Polls(tick, snapEvery));
    }
  }

  /** The loop over the frames that the schedule yields before it ends or the time is up: the pushes are
      what the policy calls for on the polled windows, distinct, nonzero and of counted sources; the
      rule store holds the latest push at each index; every main-loop read is the verdict due, and its
      rule bit says whether the frame's source was the latest push at its index at that time. */
  method RunLoop(link: Link, schedule: seq<Frame>, trigger: int, snapEvery: int) returns (state: DemoState)
    requires link.Valid() && link.log == [] && HoldsPushes(link.d, [], EpochTap(link.d.thr))
    requires forall f <- schedule :: f[16] == OP_CLASSIFY
    modifies link
    ensures fresh(state) && link.Valid()
    ensures state.pushed == Policy(link.log, trigger) && SnapshotsIn(link.log) == Polls(|schedule|, snapEvery)
    ensures PushesWhenDue(link.log, trigger) && WritesBlockTop(link.log, state.ruleEpoch)
    ensures ProperPushes(state.pushed) && AllSeen(link.d, state.pushed)
    ensures EpochTap(link.d.thr) == state.ruleEpoch && HoldsPushes(link.d, state.pushed, state.ruleEpoch)
    ensures |state.replies| == state.framesSent == |schedule| && RepliesOk(link.log, schedule, state.replies)
    ensures forall r :: 0 <= r < |state.replies| ==> RuleBitRead(link.log, state.pushed, state.replies[r])
    ensures state.recent == LastOf(VerdictsIn(state.replies), VERDICTS_KEPT)
    ensures |link.log| == 2 + |schedule| + 2 * Polls(|schedule|, snapEvery) + 2 * |state.pushed|
    ensures |state.recent| == Min(12, |schedule|)
    ensures forall i :: 0 <= i < |state.recent| ==>
      state.recent[i] == state.replies[|schedule| - |state.recent| + i].verdict
  {
    hide Steady, Progress, Link.Valid, Dev.Valid, Continues, Going, HoldsPushes, ProperPushes, RepliesOk,
      RuleBitRead, Policy, SnapshotsIn, Settled, PushesWhenDue, WritesBlockTop, LastOf, VerdictsIn, AllSeen;
    FirstSettled(link);
    var epoch := ReadRuleEpoch(link);
    state := new DemoState(epoch);
    StartsGoing(link, state, schedule, trigger);
    var tick := 0;
    while tick < |schedule|
      invariant fresh(state) && Going(link, state, schedule, trigger, Polls(tick, snapEvery))
      invariant state.framesSent == tick
      invariant tick <= |schedule| && Settled(link.first, [], EpochTap(link.first.thr)) && state.ruleEpoch == epoch
    {
      OneTick(link, state, schedule, trigger, snapEvery, tick);
      tick := tick + 1;
    }
    GoingMeans(link, state, schedule, trigger, Polls(tick, snapEvery));
    RecentInNumbers(state.replies, state.recent);
  }

  lemma FirstSettled(link: Link)
    requires link.Valid() && link.log == [] && HoldsPushes(link.d, [], EpochTap(link.d.thr))
    ensures link.first == link.d && Settled(link.first, [], EpochTap(link.first.thr))
  {
    hide HoldsPushes;
  }

  /** The rule bit of a main-loop read is due for the frame it answers. */
  ghost predicate RuleBitRead(log: seq<Entry>, pushed: seq<PushedRule>, r: Read) {
    && 0 < r.at < |log| && r.verdict == log[r.at - 1].verdict && RuleWrites(log[..r.at - 1]) <= |pushed|
    && RuleBitDue(log, pushed, r.at - 1)
  }

  lemma {:induction false} GoingMeans(link: Link, state: DemoState, schedule: seq<Frame>, trigger: int, polls: nat)
    requires Going(link, state, schedule, trigger, polls) && Settled(link.first, [], state.ruleEpoch)
    ensures link.Valid() && ProperPushes(state.pushed) && AllSeen(link.d, state.pushed)
    ensures state.pushed == Policy(link.log, trigger) && SnapshotsIn(link.log) == polls
    ensures PushesWhenDue(link.log, trigger) && WritesBlockTop(link.log, state.ruleEpoch)
    ensures EpochTap(link.d.thr) == state.ruleEpoch && HoldsPushes(link.d, state.pushed, state.ruleEpoch)
    ensures |state.replies| == state.framesSent && RepliesOk(link.log, schedule, state.replies)
    ensures forall r :: 0 <= r < |state.replies| ==> RuleBitRead(link.log, state.pushed, state.replies[r])
    ensures state.recent == LastOf(VerdictsIn(state.replies), VERDICTS_KEPT)
    ensures |link.log| == 2 + state.framesSent + 2 * polls + 2 * |state.pushed|
  {
    hide ProperPushes, HoldsPushes, AllSeen, SoundSnapshot, Policy, SnapshotsIn, WritesArePushes, RuleWrites,
      RuleBitDue, Consecutive, DevAfter, PushesWhenDue, WritesBlockTop;
    forall r | 0 <= r < |state.replies|
      ensures RuleBitRead(link.log, state.pushed, state.replies[r])
    {
      assert ReplyOk(link.log, schedule, state.replies, r);
      RuleBitsAreDue(link.first, link.ticks, link.log, state.pushed, state.ruleEpoch, state.replies[r].at - 1);
    }
  }

  lemma StartsGoing(link: Link, state: DemoState, schedule: seq<Frame>, trigger: int)
    requires link.Valid() && Continues([], link.log, [EncodeThresholdRead(THR_RULE_EPOCH), Flush()])
    requires Steady(link.d, [], state.ruleEpoch, None)
    requires state.snapshot == None && state.pushed == [] && state.recent == []
    requires state.replies == [] && state.framesSent == 0
    ensures Going(link, state, schedule, trigger, 0)
  {
    hide Steady, Link.Valid, Scripted, EncodeThresholdRead;
    StartsProgress(link.log, schedule, EncodeThresholdRead(THR_RULE_EPOCH));
    EpochReadIsPlain();
    ScriptedStart(link.log, EncodeThresholdRead(THR_RULE_EPOCH), state.ruleEpoch, trigger);
  }

  lemma EpochReadIsPlain()
    ensures Harmless(EncodeThresholdRead(THR_RULE_EPOCH)) && EncodeThresholdRead(THR_RULE_EPOCH)[16] != OP_SNAPSHOT
  {
    assert EncodeThresholdRead(THR_RULE_EPOCH)[16] == OP_THRESH_R;
  }

  lemma StartsProgress(log: seq<Entry>, schedule: seq<Frame>, f: Frame)
    requires Continues([], log, [f, Flush()])
    ensures Progress(log, schedule, [], [], 0, 0, 0)
  {
    assert log[0 + 1].frame == [f, Flush()][1];
  }
}
