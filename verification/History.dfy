/** The history of a run read off its operations alone, and the logs in the state shown to agree with it. */
module History {
  import opened Basics
  import opened Protocol
  import opened SubValue
  import opened ServerModel
  import opened Invariants
  import opened Subscribing
  import opened ValueSteps
  import opened Handlers
  import opened Growth

  // ---- values accepted ----

  /** The value an operation makes `set_value` accept, and the topic it is accepted for. */
  function AcceptedBy(st: State, op: Op): Option<(TopicIdx, TimestampedValue)> {
    match op
    case OpSetValue(v, i) => if SetValueStep(st, v, i).out.Ok? then Some((i, v)) else None
    case OpClientValue(c, p, v) =>
      if c in st.c.clients && p in st.c.clients[c].pubs.fwd && SetValueStep(st, v, st.c.clients[c].pubs.fwd[p]).out.Ok?
      then Some((st.c.clients[c].pubs.fwd[p], v)) else None
    case _ => None
  }

  function AcceptedFor(st: State, op: Op, i: TopicIdx): seq<TimestampedValue> {
    match AcceptedBy(st, op)
    case None => []
    case Some((k, v)) => if k == i then [v] else []
  }

  /** The values accepted for topic `i` by the operations `lo`, ..., `hi - 1`, in order. */
  function AcceptedIn(states: seq<State>, ops: seq<Op>, i: TopicIdx, lo: nat, hi: nat): seq<TimestampedValue>
    requires |states| == |ops| + 1 && lo <= hi <= |ops|
    decreases hi
  {
    if lo == hi then [] else AcceptedIn(states, ops, i, lo, hi - 1) + AcceptedFor(states[hi - 1], ops[hi - 1], i)
  }

  function AcceptedOf(g: TopicLog, i: TopicIdx): seq<TimestampedValue> {
    if i < |g.accepted| then g.accepted[i] else []
  }

  lemma {:induction false} UntouchedAccepts(a: State, b: State, i: TopicIdx)
    requires SubsUntouched(a, b)
    ensures AcceptedOf(b.tlog, i) == AcceptedOf(a.tlog, i)
  {
    if i < |a.tlog.accepted| {
      assert b.tlog.accepted[i] == a.tlog.accepted[i];
    }
  }

  lemma {:induction false} SetValueAccepts(st: State, v: TimestampedValue, k: TopicIdx, i: TopicIdx)
    requires Inv(st)
    ensures var r := SetValueStep(st, v, k);
      AcceptedOf(r.st.tlog, i) == AcceptedOf(st.tlog, i) + if r.out.Ok? && k == i then [v] else []
  {
    if k in st.t.topics {
      assert k < |st.tlog.accepted| by { hide Cached, HaveLists, ClientInv, IndexInv, SubInv, MailInv; }
    }
    hide Inv, Queued, Replace;
  }

  /** Only the topic log matters here, and these handlers leave it alone. */
  lemma {:induction false} SubscribeLog(st: State, sub: Subscription, c: ClientIdx, order: seq<string>, now: nat)
    requires forall n | n in order :: n in st.t.topicMap
    ensures SubscribeStep(st, sub, c, order, now).st.tlog == st.tlog
  {
    if c in st.c.clients {
      SubscribeShape(st, sub, c, order, now);
      hide SubscribeStep, VisitAll, Matches, BirthOf, Welcomed, NewStore, Ids;
    }
  }

  lemma {:induction false} SendOutFrame(st: State, picks: seq<Pick>, now: nat)
    requires forall p | p in picks :: CanPick(st.s, p)
    ensures var r := SendOutStep(st, picks, now);
      r.tlog == st.tlog && r.t == st.t && r.p == st.p && r.counters == st.counters && r.log.births == st.log.births && r.c.clients == st.c.clients
  {
    if picks != [] {
      var front := picks[..|picks| - 1];
      assert forall p | p in front :: p in picks;
      SendOutFrame(st, front, now);
      hide Batches, Joined;
    }
  }

  lemma {:induction false} StepAccepts(st: State, op: Op, i: TopicIdx)
    requires Inv(st) && Enabled(st, op)
    ensures AcceptedOf(Step(st, op).tlog, i) == AcceptedOf(st.tlog, i) + AcceptedFor(st, op, i)
  {
    hide Inv, SubsUntouched, SeatsUntouched, ConnectStep, DisconnectStep, PublishStep, UnpublishStep, SubscribeStep, UnsubscribeStep, SetPropertiesStep, SetValueStep, SendOutStep;
    match op
    case OpConnect(_) => UntouchedAccepts(st, Step(st, op), i);
    case OpDisconnect(_, _) => UntouchedAccepts(st, Step(st, op), i);
    case OpPublish(_, _) => UntouchedAccepts(st, Step(st, op), i);
    case OpUnpublish(_, _) => UntouchedAccepts(st, Step(st, op), i);
    case OpSubscribe(sub, c, order, now) => SubscribeLog(st, sub, c, order, now);
    case OpUnsubscribe(subuid, c) => UnsubscribeLog(st, subuid, c);
    case OpSetProperties(name, update) => SetPropertiesLog(st, name, update);
    case OpSetValue(value, k) => SetValueAccepts(st, value, k, i);
    case OpClientValue(c, pubuid, value) =>
      if c in st.c.clients && pubuid in st.c.clients[c].pubs.fwd {
        SetValueAccepts(st, value, st.c.clients[c].pubs.fwd[pubuid], i);
      }
    case OpSendOut(picks, now) => SendOutFrame(st, picks, now);
  }

  lemma {:induction false} UnsubscribeLog(st: State, subuid: i32, c: ClientIdx)
    ensures var r := UnsubscribeStep(st, subuid, c).st; r.tlog == st.tlog && r.log == st.log
  {
    hide WithoutSub;
  }

  lemma {:induction false} SetPropertiesLog(st: State, name: string, update: PublishProperties)
    ensures var r := SetPropertiesStep(st, name, update).st; r.tlog == st.tlog && r.log == st.log && r.s == st.s
  {
    hide Updated;
  }

  /** The log of accepted values is the history of accepted values. */
  lemma {:induction false} RunAccepts(states: seq<State>, ops: seq<Op>, i: TopicIdx, lo: nat, hi: nat)
    requires IsRun(states, ops) && lo <= hi <= |ops|
    ensures AcceptedOf(states[hi].tlog, i) == AcceptedOf(states[lo].tlog, i) + AcceptedIn(states, ops, i, lo, hi)
    decreases hi
  {
    hide Inv, Init, Step, Enabled, AcceptedOf, AcceptedFor;
    if lo < hi {
      RunAccepts(states, ops, i, lo, hi - 1);
      RunInv(states, ops, hi - 1);
      StepAccepts(states[hi - 1], ops[hi - 1], i);
    }
  }

  lemma {:induction false} InitAccepts(checks: bool, i: TopicIdx)
    ensures AcceptedOf(Init(checks).tlog, i) == []
  {
    UntouchedAccepts(Blank(checks), Init(checks), i);
    hide Init;
  }

  lemma {:induction false} RunAcceptsAll(states: seq<State>, ops: seq<Op>, i: TopicIdx, k: nat)
    requires IsRun(states, ops) && k <= |ops|
    ensures AcceptedOf(states[k].tlog, i) == AcceptedIn(states, ops, i, 0, k)
  {
    hide Init, AcceptedOf;
    var checks :| states[0] == Init(checks);
    InitAccepts(checks, i);
    RunAccepts(states, ops, i, 0, k);
  }

  // ---- values sent out ----

  predicate Picked(picks: seq<Pick>, s: SubIdx) {
    exists k | 0 <= k < |picks| :: picks[k].s == s
  }

  /** The values of topic `i` an operation takes from the store of subscription `s` and sends. */
  function DrainedBy(st: State, op: Op, s: SubIdx, i: TopicIdx): seq<TimestampedValue> {
    if op.OpSendOut? && Picked(op.picks, s) && s in st.s.subscriptions && s in st.s.subValues && st.s.subscriptions[s].1 in st.c.clients
    then st.s.subValues[s].Pending(i)
    else []
  }

  function DrainedIn(states: seq<State>, ops: seq<Op>, s: SubIdx, i: TopicIdx, lo: nat, hi: nat): seq<TimestampedValue>
    requires |states| == |ops| + 1 && lo <= hi <= |ops|
    decreases hi
  {
    if lo == hi then [] else DrainedIn(states, ops, s, i, lo, hi - 1) + DrainedBy(states[hi - 1], ops[hi - 1], s, i)
  }

  function DrainedOf(l: Log, s: SubIdx, i: TopicIdx): seq<TimestampedValue> {
    GetOr(GetOr(l.drained, s, map[]), i, [])
  }

  lemma {:induction false} SendSubDrains(st: State, p: Pick, now: nat, s: SubIdx, i: TopicIdx)
    requires CanPick(st.s, p)
    ensures var r := SendSub(st, p, now);
      DrainedOf(r.log, s, i) == DrainedOf(st.log, s, i) +
        if p.s == s && st.s.subscriptions[s].1 in st.c.clients then st.s.subValues[s].Pending(i) else []
  {
    hide Batches, Deliver;
  }

  lemma {:induction false} SendSubOthers(st: State, p: Pick, now: nat, s: SubIdx)
    requires CanPick(st.s, p) && p.s != s && s in st.s.subValues
    ensures SendSub(st, p, now).s.subValues[s] == st.s.subValues[s]
  {
    hide Batches, Joined, Deliver;
  }

  /** A pass leaves the stores of the subscriptions it does not visit alone. */
  lemma {:induction false} SendOutOthers(st: State, picks: seq<Pick>, now: nat, s: SubIdx)
    requires (forall p | p in picks :: CanPick(st.s, p)) && !Picked(picks, s) && s in st.s.subValues
    ensures SendOutStep(st, picks, now).s.subValues[s] == st.s.subValues[s]
  {
    if picks != [] {
      var front, last := picks[..|picks| - 1], picks[|picks| - 1];
      assert forall p | p in front :: p in picks;
      assert last in picks && CanPick(st.s, last) && last.s != s;
      SendOutOthers(st, front, now, s);
      SendSubOthers(SendOutStep(st, front, now), last, now, s);
      hide SendSub;
    }
  }

  lemma {:induction false} SendOutDrains(st: State, picks: seq<Pick>, now: nat, s: SubIdx, i: TopicIdx)
    requires forall p | p in picks :: CanPick(st.s, p)
    requires forall j, k :: 0 <= j < k < |picks| ==> picks[j].s != picks[k].s
    ensures DrainedOf(SendOutStep(st, picks, now).log, s, i) == DrainedOf(st.log, s, i) + DrainedBy(st, OpSendOut(picks, now), s, i)
  {
    hide DrainedOf, SendSub;
    if picks != [] {
      var front, last := picks[..|picks| - 1], picks[|picks| - 1];
      assert forall p | p in front :: p in picks;
      assert last in picks && CanPick(st.s, last);
      SendOutDrains(st, front, now, s, i);
      SendOutFrame(st, front, now);
      var before := SendOutStep(st, front, now);
      SendSubDrains(before, last, now, s, i);
      if last.s == s {
        assert !Picked(front, s) && picks[|picks| - 1].s == s;
        SendOutOthers(st, front, now, s);
      } else {
        assert Picked(picks, s) <==> Picked(front, s);
      }
    }
  }

  lemma {:induction false} SubscribeDrained(st: State, sub: Subscription, c: ClientIdx, order: seq<string>, now: nat)
    requires forall n | n in order :: n in st.t.topicMap
    ensures var r := SubscribeStep(st, sub, c, order, now).st;
      forall s, i | s != st.counters.subIdx :: DrainedOf(r.log, s, i) == DrainedOf(st.log, s, i)
  {
    if c in st.c.clients {
      SubscribeShape(st, sub, c, order, now);
      hide SubscribeStep, VisitAll, Matches, BirthOf, Welcomed, NewStore, Ids;
    }
  }

  lemma {:induction false} SetValueLog(st: State, v: TimestampedValue, i: TopicIdx)
    ensures SetValueStep(st, v, i).st.log == st.log
  {
    hide Queued, Append, Replace;
  }

  lemma {:induction false} StepDrains(st: State, op: Op, s: SubIdx, i: TopicIdx)
    requires Enabled(st, op) && s != st.counters.subIdx
    ensures DrainedOf(Step(st, op).log, s, i) == DrainedOf(st.log, s, i) + DrainedBy(st, op, s, i)
  {
    hide SubsUntouched, SeatsUntouched, ConnectStep, DisconnectStep, PublishStep, UnpublishStep, SubscribeStep, UnsubscribeStep, SetPropertiesStep, SetValueStep, SendOutStep, Picked, DrainedOf;
    match op
    case OpConnect(_) => SameDrained(st, Step(st, op), s, i);
    case OpDisconnect(_, _) => SameDrained(st, Step(st, op), s, i);
    case OpPublish(_, _) => SameDrained(st, Step(st, op), s, i);
    case OpUnpublish(_, _) => SameDrained(st, Step(st, op), s, i);
    case OpSubscribe(sub, c, order, now) => SubscribeDrained(st, sub, c, order, now);
    case OpUnsubscribe(subuid, c) => UnsubscribeLog(st, subuid, c);
    case OpSetProperties(name, update) => SetPropertiesLog(st, name, update);
    case OpSetValue(value, k) => SetValueLog(st, value, k);
    case OpClientValue(c, pubuid, value) =>
      if c in st.c.clients && pubuid in st.c.clients[c].pubs.fwd {
        SetValueLog(st, value, st.c.clients[c].pubs.fwd[pubuid]);
      }
    case OpSendOut(picks, now) =>
      assert forall p | p in picks :: ValidPick(st.s, p);
      SendOutDrains(st, picks, now, s, i);
  }

  lemma {:induction false} BirthsBelow(st: State, s: SubIdx)
    requires Inv(st) && s in st.log.births
    ensures s < st.counters.subIdx
  {
    hide TopicInv, ClientInv, IndexInv, MailInv, Delivered;
  }

  lemma {:induction false} SameDrained(a: State, b: State, s: SubIdx, i: TopicIdx)
    requires SubsUntouched(a, b)
    ensures DrainedOf(b.log, s, i) == DrainedOf(a.log, s, i)
  {}

  /** The log of values sent is the history of values sent. */
  lemma {:induction false} RunDrains(states: seq<State>, ops: seq<Op>, s: SubIdx, i: TopicIdx, lo: nat, hi: nat)
    requires IsRun(states, ops) && lo <= hi <= |ops| && s in states[lo].log.births
    ensures DrainedOf(states[hi].log, s, i) == DrainedOf(states[lo].log, s, i) + DrainedIn(states, ops, s, i, lo, hi)
    decreases hi
  {
    hide Inv, Init, Step, Enabled, DrainedOf, DrainedBy;
    if lo < hi {
      RunDrains(states, ops, s, i, lo, hi - 1);
      RunInv(states, ops, hi - 1);
      BirthsStay(states, ops, s, lo, hi - 1);
      BirthsBelow(states[hi - 1], s);
      StepDrains(states[hi - 1], ops[hi - 1], s, i);
    }
  }

  lemma {:induction false} BirthsStay(states: seq<State>, ops: seq<Op>, s: SubIdx, lo: nat, hi: nat)
    requires IsRun(states, ops) && lo <= hi <= |ops| && s in states[lo].log.births
    ensures s in states[hi].log.births && states[hi].log.births[s] == states[lo].log.births[s]
  {
    hide Inv, Init, Step, Enabled;
    RunLater(states, ops, lo, hi);
    assert SubsLater(states[lo].s, states[hi].s, states[lo].log.births, states[hi].log.births, states[lo].counters.subIdx);
  }

}
