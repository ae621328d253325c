/** Every run that publishes ordinary names keeps topics and metatopics in lockstep. */
module FreeRuns {
  import opened Basics
  import opened BiMap
  import opened Protocol
  import opened MetaTopic
  import opened SubValue
  import opened ServerModel
  import opened Invariants
  import opened TopicSteps
  import opened Subscribing
  import opened Handlers
  import opened Lockstep

  /** What `FreeInv` speaks of is as before; publisher uids and clients may only be fewer. */
  ghost predicate SameNames(st: State, st': State) {
    && st'.overflowChecks == st.overflowChecks && st'.t.topics == st.t.topics && st'.t.topicMap == st.t.topicMap
    && st'.t.topicValues.Keys <= st.t.topicValues.Keys + st.t.topics.Keys
    && st'.p == st.p && st'.tlog.names == st.tlog.names && st'.tlog.initial == st.tlog.initial && st'.tlog.releases == st.tlog.releases
    && (forall c | c in st'.c.clients :: c in st.c.clients && st'.c.clients[c].pubs == st.c.clients[c].pubs)
  }

  lemma {:induction false} SameNamesFree(st: State, st': State)
    requires FreeInv(st) && SameNames(st, st')
    ensures FreeInv(st')
  {
    FreeFrame(st, st');
    hide FreeCore;
  }

  lemma {:induction false} SubscribeSameNames(st: State, sub: Subscription, c: ClientIdx, order: seq<string>, now: nat)
    requires forall n | n in order :: n in st.t.topicMap
    ensures SameNames(st, SubscribeStep(st, sub, c, order, now).st)
  {
    if c in st.c.clients {
      SubscribeShape(st, sub, c, order, now);
      hide SubscribeStep, VisitAll, Matches, Ids, NewStore, BirthOf;
      var s, v := st.counters.subIdx, VisitAll(st.t, st.counters.subIdx, Matches(st.t.topicMap, sub, order));
      assert forall k | k in Welcomed(st.c, c, sub, s, v).clients :: k in st.c.clients && Welcomed(st.c, c, sub, s, v).clients[k].pubs == st.c.clients[k].pubs;
      hide Welcomed;
    }
  }

  lemma {:induction false} UnsubscribeSameNames(st: State, subuid: i32, c: ClientIdx)
    ensures SameNames(st, UnsubscribeStep(st, subuid, c).st)
  {
    hide WithoutSub;
  }

  lemma {:induction false} SetValueSameNames(st: State, v: TimestampedValue, i: TopicIdx)
    ensures SameNames(st, SetValueStep(st, v, i).st)
  {
    hide Queued, Append;
  }

  lemma {:induction false} SendSubSameNames(st: State, p: Pick, now: nat)
    requires CanPick(st.s, p)
    ensures SameNames(st, SendSub(st, p, now))
  {
    hide Batches, Joined;
  }

  lemma {:induction false} SameNamesTrans(a: State, b: State, c: State)
    requires SameNames(a, b) && SameNames(b, c)
    ensures SameNames(a, c)
  {}

  lemma {:induction false} SendOutSameNames(st: State, picks: seq<Pick>, now: nat)
    requires forall p | p in picks :: CanPick(st.s, p)
    ensures SameNames(st, SendOutStep(st, picks, now))
  {
    hide SendSub;
    if picks != [] {
      var front, last := picks[..|picks| - 1], picks[|picks| - 1];
      assert forall p | p in front :: p in picks;
      assert CanPick(st.s, last);
      SendOutSameNames(st, front, now);
      var before := SendOutStep(st, front, now);
      SendSubSameNames(before, last, now);
      SameNamesTrans(st, before, SendSub(before, last, now));
    }
    hide SameNames;
  }

  lemma {:induction false} SetPropertiesFree(st: State, name: string, update: PublishProperties)
    requires FreeInv(st)
    ensures FreeInv(SetPropertiesStep(st, name, update).st)
  {
    var r := SetPropertiesStep(st, name, update);
    if r.out.Ok? {
      assert Alive(r.st.t);
      assert r.st.t.topics.Keys == st.t.topics.Keys;
      hide Shaped, InLockstep, Alive, Lifetimes, Serviced, KeptNames, Plain, Updated;
    }
  }

  predicate FreeOp(op: Op) {
    op.OpPublish? ==> Ordinary(op.topic.name)
  }

  lemma {:induction false} StepFree(st: State, op: Op)
    requires Inv(st) && FreeInv(st) && Enabled(st, op) && FreeOp(op)
    ensures FreeInv(Step(st, op))
  {
    hide Inv, FreeCore, SameNames, ConnectStep, DisconnectStep, PublishStep, UnpublishStep, SubscribeStep, UnsubscribeStep, SetPropertiesStep, SetValueStep, SendOutStep, Ordinary;
    match op
    case OpConnect(identity) => ConnectFree(st, identity);
    case OpDisconnect(identity, order) => DisconnectFree(st, identity, order);
    case OpPublish(topic, c) => PublishFree(st, topic, c);
    case OpUnpublish(pubuid, c) => UnpublishFree(st, pubuid, c);
    case OpSubscribe(sub, c, order, now) =>
      SubscribeSameNames(st, sub, c, order, now);
      SameNamesFree(st, Step(st, op));
    case OpUnsubscribe(subuid, c) =>
      UnsubscribeSameNames(st, subuid, c);
      SameNamesFree(st, Step(st, op));
    case OpSetProperties(name, update) => SetPropertiesFree(st, name, update);
    case OpSetValue(value, i) =>
      SetValueSameNames(st, value, i);
      SameNamesFree(st, Step(st, op));
    case OpClientValue(c, pubuid, value) =>
      if c in st.c.clients && pubuid in st.c.clients[c].pubs.fwd {
        SetValueSameNames(st, value, st.c.clients[c].pubs.fwd[pubuid]);
        SameNamesFree(st, Step(st, op));
      }
    case OpSendOut(picks, now) =>
      assert forall p | p in picks :: ValidPick(st.s, p);
      SendOutSameNames(st, picks, now);
      SameNamesFree(st, Step(st, op));
  }

  lemma {:induction false} BlankFree(checks: bool)
    ensures FreeInv(Blank(checks)) && TopicInv(Blank(checks).t, Blank(checks).tlog, 0)
  {}

  lemma {:induction false} InitFree(checks: bool)
    ensures FreeInv(Init(checks))
  {
    var st := Blank(checks);
    var a := Alloc(st, NewMeta("$clients"));
    var b := Alloc(a, NewMeta("$serversub"));
    assert IsService("$clients") && IsService("$serversub") && IsService("$serverpub") by {
      assert "$clients"[..7] == "$client" && "$serversub"[..7] == "$server" && "$serverpub"[..7] == "$server";
    }
    assert "$serversub" !in a.t.topicMap && "$serverpub" !in b.t.topicMap by {
      assert "$clients"[1] == 'c' && "$serversub"[1] == 's' && "$serverpub"[1] == 's' && "$serversub"[7] == 's' && "$serverpub"[7] == 'p';
      assert a.t.topicMap.Keys == {"$clients"} && b.t.topicMap.Keys == {"$clients", "$serversub"};
    }
    BlankFree(checks);
    hide FreeCore, TopicInv, Alloc, IsService;
    AllocServiceFree(st, "$clients");
    AllocServiceFree(a, "$serversub");
    AllocServiceFree(b, "$serverpub");
  }

  /** The lockstep invariant holds in every state of every run that publishes ordinary names only. */
  lemma {:induction false} RunFree(states: seq<State>, ops: seq<Op>, k: nat)
    requires IsRun(states, ops) && k < |states| && forall j | 0 <= j < |ops| :: FreeOp(ops[j])
    ensures Inv(states[k]) && FreeInv(states[k])
  {
    hide Inv, FreeInv, Init, Step, Enabled, FreeOp;
    RunInv(states, ops, k);
    if k == 0 {
      var checks :| states[0] == Init(checks);
      InitFree(checks);
    } else {
      RunFree(states, ops, k - 1);
      StepFree(states[k - 1], ops[k - 1]);
    }
  }
}
