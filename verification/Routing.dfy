/** Values sent by clients end up where their pubuid says, and nowhere else. */
module Routing {
  import opened Basics
  import opened Protocol
  import opened SubValue
  import opened ServerModel
  import opened Invariants
  import opened ClientSteps
  import opened Subscribing
  import opened Handlers
  import opened Lockstep
  import opened Growth
  import opened History
  import opened Registry

  // ---- every client has its metatopics ----

  ghost predicate EquippedState(st: State) {
    Equipped(st.c.clients.Keys, st.p.clientMetatopics)
  }

  lemma {:induction false} SeatsEquipped(a: State, b: State)
    requires EquippedState(a) && SeatsUntouched(a, b)
    ensures EquippedState(b)
  {}

  lemma {:induction false} ConnectEquipped(st: State, identity: Identity)
    requires Inv(st) && EquippedState(st)
    ensures EquippedState(ConnectStep(st, identity).st)
  {
    hide Inv, RenamedIdentity, AddTopic, ClientPub, ClientSub, SubsUntouched;
    if identity !in st.c.clientMap {
      var renamed := RenamedIdentity(st.c.clients, identity);
      var st1 := Register(st, renamed);
      RegisterInv(st, renamed);
      RegisterSeats(st, renamed);
      ClientNames(renamed.name);
      hide Register;
      AddTopicLeaf(st1, NewMeta(ClientPub(renamed.name)));
      var p := AddTopic(st1, NewMeta(ClientPub(renamed.name)));
      AddTopicLeaf(p.st, NewMeta(ClientSub(renamed.name)));
    }
  }

  lemma {:induction false} RegisterSeats(st: State, identity: Identity)
    ensures var r := Register(st, identity);
      r.c.clients.Keys == st.c.clients.Keys + {st.counters.clientIdx} && r.p.clientMetatopics == st.p.clientMetatopics
  {}

  lemma {:induction false} DisconnectEquipped(st: State, identity: Identity, order: seq<PubUID>)
    requires EquippedState(st) && forall p | p in order :: p in PubsOf(st.c, identity)
    ensures EquippedState(DisconnectStep(st, identity, order).st)
  {
    hide ReleaseAll, DropMetatopics, PubsOf, SubsUntouched;
    if identity in st.c.clientMap {
      UnregisterFrame(st, identity);
    }
    hide Unregister;
  }

  lemma {:induction false} SubscribeSeats(st: State, sub: Subscription, c: ClientIdx, order: seq<string>, now: nat)
    requires forall n | n in order :: n in st.t.topicMap
    ensures var r := SubscribeStep(st, sub, c, order, now).st;
      SeatsUntouched(st, r) && r.log.lastPublished == st.log.lastPublished
  {
    if c in st.c.clients {
      SubscribeShape(st, sub, c, order, now);
      hide SubscribeStep, VisitAll, Matches, Ids, NewStore, BirthOf;
      var s, v := st.counters.subIdx, VisitAll(st.t, st.counters.subIdx, Matches(st.t.topicMap, sub, order));
      assert Welcomed(st.c, c, sub, s, v).clients.Keys == st.c.clients.Keys;
      hide Welcomed;
    }
  }

  lemma {:induction false} OtherSeats(st: State, subuid: i32, c: ClientIdx, name: string, update: PublishProperties, v: TimestampedValue, i: TopicIdx)
    ensures SeatsUntouched(st, UnsubscribeStep(st, subuid, c).st) && SeatsUntouched(st, SetPropertiesStep(st, name, update).st)
    ensures SeatsUntouched(st, SetValueStep(st, v, i).st)
  {
    hide WithoutSub, Queued, Append, Replace, Updated;
  }

  lemma {:induction false} SendOutLast(st: State, picks: seq<Pick>, now: nat)
    requires forall p | p in picks :: CanPick(st.s, p)
    ensures SendOutStep(st, picks, now).log.lastPublished == st.log.lastPublished
  {
    if picks != [] {
      var front := picks[..|picks| - 1];
      assert forall p | p in front :: p in picks;
      SendOutLast(st, front, now);
      hide Batches, Joined;
    }
  }

  lemma {:induction false} StepEquipped(st: State, op: Op)
    requires Inv(st) && EquippedState(st) && Enabled(st, op)
    ensures EquippedState(Step(st, op))
  {
    hide Inv, EquippedState, SeatsUntouched, SubsUntouched, ConnectStep, DisconnectStep, PublishStep, UnpublishStep, SubscribeStep, UnsubscribeStep, SetPropertiesStep, SetValueStep, SendOutStep;
    match op
    case OpConnect(identity) => ConnectEquipped(st, identity);
    case OpDisconnect(identity, order) => DisconnectEquipped(st, identity, order);
    case OpPublish(_, _) => SeatsEquipped(st, Step(st, op));
    case OpUnpublish(_, _) => SeatsEquipped(st, Step(st, op));
    case OpSubscribe(sub, c, order, now) =>
      SubscribeSeats(st, sub, c, order, now);
      SeatsEquipped(st, Step(st, op));
    case OpUnsubscribe(subuid, c) =>
      OtherSeats(st, subuid, c, "", DEFAULT_PROPERTIES, TimestampedValue(0, FrcValue("", [])), 0);
      SeatsEquipped(st, Step(st, op));
    case OpSetProperties(name, update) =>
      OtherSeats(st, 0, 0, name, update, TimestampedValue(0, FrcValue("", [])), 0);
      SeatsEquipped(st, Step(st, op));
    case OpSetValue(value, i) =>
      OtherSeats(st, 0, 0, "", DEFAULT_PROPERTIES, value, i);
      SeatsEquipped(st, Step(st, op));
    case OpClientValue(c, pubuid, value) =>
      if c in st.c.clients && pubuid in st.c.clients[c].pubs.fwd {
        OtherSeats(st, 0, 0, "", DEFAULT_PROPERTIES, value, st.c.clients[c].pubs.fwd[pubuid]);
        SeatsEquipped(st, Step(st, op));
      }
    case OpSendOut(picks, now) =>
      SendOutFrame(st, picks, now);
      SendOutEquipped(st, Step(st, op));
  }

  lemma {:induction false} SendOutEquipped(a: State, b: State)
    requires EquippedState(a) && b.c.clients == a.c.clients && b.p == a.p
    ensures EquippedState(b)
  {}

  lemma {:induction false} RunEquipped(states: seq<State>, ops: seq<Op>, j: nat)
    requires IsRun(states, ops) && j <= |ops|
    ensures EquippedState(states[j])
  {
    if j == 0 {
      StartEmpty(states, ops);
    } else {
      hide Inv, Init, Step, Enabled, EquippedState;
      RunInv(states, ops, j - 1);
      RunEquipped(states, ops, j - 1);
      StepEquipped(states[j - 1], ops[j - 1]);
    }
  }

  // ---- the name last published ----

  /** The name a successful publish puts under a client's pubuid. */
  function PublishedBy(st: State, op: Op, c: ClientIdx, p: PubUID): Option<string> {
    if op.OpPublish? && op.client == c && op.topic.pubuid == p && PublishStep(st, op.topic, c).out.Ok? then Some(op.topic.name) else None
  }

  /** The name client `c` last published successfully under `p` before operation `j`. */
  function LastPublished(states: seq<State>, ops: seq<Op>, c: ClientIdx, p: PubUID, j: nat): Option<string>
    requires |states| == |ops| + 1 && j <= |ops|
  {
    if j == 0 then None
    else if PublishedBy(states[j - 1], ops[j - 1], c, p).Some? then PublishedBy(states[j - 1], ops[j - 1], c, p)
    else LastPublished(states, ops, c, p, j - 1)
  }

  /** A publish writes its name down exactly if it succeeds. */
  lemma {:induction false} PublishNotes(st: State, topic: PublishTopic, c: ClientIdx)
    requires EquippedState(st)
    ensures var r := PublishStep(st, topic, c);
      r.st.log.lastPublished == if r.out.Ok? then st.log.lastPublished[(c, topic.pubuid) := topic.name] else st.log.lastPublished
  {
    hide AddTopic, AnnounceTopic, BindPub, SubsUntouched;
  }

  lemma {:induction false} StepNotes(st: State, op: Op, c: ClientIdx, p: PubUID)
    requires EquippedState(st) && Enabled(st, op)
    ensures Lookup(Step(st, op).log.lastPublished, (c, p)) ==
      if PublishedBy(st, op, c, p).Some? then PublishedBy(st, op, c, p) else Lookup(st.log.lastPublished, (c, p))
  {
    hide EquippedState, SeatsUntouched, SubsUntouched, ConnectStep, DisconnectStep, PublishStep, UnpublishStep, SubscribeStep, UnsubscribeStep, SetPropertiesStep, SetValueStep, SendOutStep;
    match op
    case OpConnect(_) =>
    case OpDisconnect(_, _) =>
    case OpPublish(topic, d) => PublishNotes(st, topic, d);
    case OpUnpublish(_, _) =>
    case OpSubscribe(sub, d, order, now) => SubscribeSeats(st, sub, d, order, now);
    case OpUnsubscribe(subuid, d) => UnsubscribeLog(st, subuid, d);
    case OpSetProperties(name, update) => SetPropertiesLog(st, name, update);
    case OpSetValue(value, i) => SetValueLog(st, value, i);
    case OpClientValue(d, pubuid, value) =>
      if d in st.c.clients && pubuid in st.c.clients[d].pubs.fwd {
        SetValueLog(st, value, st.c.clients[d].pubs.fwd[pubuid]);
      }
    case OpSendOut(picks, now) => SendOutLast(st, picks, now);
  }

  lemma {:induction false} RunNotes(states: seq<State>, ops: seq<Op>, c: ClientIdx, p: PubUID, j: nat)
    requires IsRun(states, ops) && j <= |ops|
    ensures Lookup(states[j].log.lastPublished, (c, p)) == LastPublished(states, ops, c, p, j)
  {
    hide Inv, Init, Step, Enabled, EquippedState, PublishedBy;
    if j == 0 {
      StartEmpty(states, ops);
    } else {
      RunNotes(states, ops, c, p, j - 1);
      RunEquipped(states, ops, j - 1);
      StepNotes(states[j - 1], ops[j - 1], c, p);
    }
  }

  // ---- routing ----

  /** Only topic `i` got a value: its cache, and the stores of the subscriptions listed for it, at most. */
  ghost predicate OnlyTopic(st: State, st': State, i: TopicIdx, v: TimestampedValue) {
    && st'.t == st.t.(topicValues := st'.t.topicValues) && st'.p == st.p && st'.c == st.c && st'.counters == st.counters
    && st'.s == st.s.(subValues := st'.s.subValues) && st'.s.subValues.Keys == st.s.subValues.Keys
    && (forall k | k != i :: Lookup(st'.t.topicValues, k) == Lookup(st.t.topicValues, k))
    && Lookup(st'.t.topicValues, i) == Replace(Lookup(st.t.topicValues, i), v)
    && (forall s | s in st.s.subValues ::
          st'.s.subValues[s] == if i in st.t.topicSubs && s in st.t.topicSubs[i] then st.s.subValues[s].AddValue(i, v) else st.s.subValues[s])
  }

  lemma {:induction false} SetValueOnly(st: State, v: TimestampedValue, i: TopicIdx)
    ensures var r := SetValueStep(st, v, i);
      if i in st.t.topics && '$' !in st.t.topics[i].name then r.out.Ok? && OnlyTopic(st, r.st, i, v) else r.out.Err? && r.st == st
  {}

  /** Whatever else happened before: a value client `c` sends under pubuid `p` is stored and queued for the live ordinary
      topic that has the name `c` last published under `p`, or it changes nothing. */
  lemma {:induction false} RoutingSafety(states: seq<State>, ops: seq<Op>, j: nat)
    requires IsRun(states, ops) && j < |ops| && ops[j].OpClientValue?
    ensures var st, c, p := states[j], ops[j].client, ops[j].pubuid;
      var routed := c in st.c.clients && p in st.c.clients[c].pubs.fwd;
      if routed && st.c.clients[c].pubs.fwd[p] in st.t.topics && '$' !in st.t.topics[st.c.clients[c].pubs.fwd[p]].name then
        var i := st.c.clients[c].pubs.fwd[p];
        && OnlyTopic(st, states[j + 1], i, ops[j].value)
        && Some(st.t.topics[i].name) == LastPublished(states, ops, c, p, j)
      else states[j + 1] == st
  {
    var st, c, p := states[j], ops[j].client, ops[j].pubuid;
    hide Inv, IsRun, LastPublished, OnlyTopic;
    RunInv(states, ops, j);
    ClientValueAt(states, ops, j);
    if c in st.c.clients && p in st.c.clients[c].pubs.fwd {
      SetValueOnly(st, ops[j].value, st.c.clients[c].pubs.fwd[p]);
      RunNotes(states, ops, c, p, j);
      RoutedName(st, c, p);
      hide SetValueStep;
    }
  }

  lemma {:induction false} RoutedName(st: State, c: ClientIdx, p: PubUID)
    requires Inv(st) && c in st.c.clients && p in st.c.clients[c].pubs.fwd
    ensures var i := st.c.clients[c].pubs.fwd[p];
      i in st.t.topics ==> Lookup(st.log.lastPublished, (c, p)) == Some(st.t.topics[i].name)
  {
    hide IndexInv, SubInv, MailInv, MapNamed, HaveLists, Cached, Seated, Owned;
  }

  lemma {:induction false} ClientValueAt(states: seq<State>, ops: seq<Op>, j: nat)
    requires IsRun(states, ops) && j < |ops| && ops[j].OpClientValue?
    ensures states[j + 1] == ClientValueStep(states[j], ops[j].client, ops[j].pubuid, ops[j].value)
  {
    hide ClientValueStep, Init;
  }

  /** A topic id that left the live topics never comes back, and ids in the name table do not change their name. */
  lemma {:induction false} IdsNeverReturn(states: seq<State>, ops: seq<Op>, j: nat, k: nat, i: TopicIdx)
    requires IsRun(states, ops) && j <= k <= |ops| && i < states[j].counters.topicIdx
    ensures i in states[k].t.topics ==> i in states[j].t.topics && states[k].t.topics[i].name == states[j].t.topics[i].name
    ensures forall name | name in states[k].t.topicMap && states[k].t.topicMap[name] == i :: name in states[j].t.topicMap && states[j].t.topicMap[name] == i
  {
    hide Inv, Init, Step, Enabled;
    RunLater(states, ops, j, k);
  }
}
