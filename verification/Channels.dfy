/** What a whole output channel holds, read off the operations of a run, and how accepted values get from the server to a user. */
module Channels {
  import opened Basics
  import opened BiMap
  import opened Protocol
  import opened MetaTopic
  import opened SubValue
  import opened ServerModel
  import opened Mailbox
  import opened Invariants
  import opened TopicSteps
  import opened ClientSteps
  import opened Subscribing
  import opened ValueSteps
  import opened Handlers
  import opened Growth
  import opened History
  import opened Delivery
  import opened Mailing
  import opened Registry

  /** The values for topic `i` sent to client `k` so far. */
  function SentTo(c: ClientTables, k: ClientIdx, i: TopicIdx): seq<TimestampedValue> {
    if k in c.outboxes then SentIn(c.outboxes[k], i) else []
  }

  /** The values for topic `i` that an operation sends to client `c`: when it subscribes, the cached value of a topic the new
      subscription is listed for; at a pass, what was waiting for the client's subscriptions that are visited, in order. */
  ghost function SentFor(st: State, op: Op, c: ClientIdx, i: TopicIdx): seq<TimestampedValue>
    requires Enabled(st, op)
  {
    if c !in st.c.clients || c !in st.c.outboxes then []
    else
      match op
      case OpSubscribe(sub, d, order, now) =>
        if d == c && Listed(SubscribeStep(st, sub, d, order, now).st.t, st.counters.subIdx, i) then CachedFor(st.t, i) else []
      case OpSendOut(picks, _) =>
        assert forall p | p in picks :: ValidPick(st.s, p);
        WaitingFor(st.s, picks, c, i)
      case _ => []
  }

  ghost function SentBy(states: seq<State>, ops: seq<Op>, c: ClientIdx, i: TopicIdx, hi: nat): seq<TimestampedValue>
    requires IsRun(states, ops) && hi <= |ops|
  {
    if hi == 0 then [] else SentBy(states, ops, c, i, hi - 1) + SentFor(states[hi - 1], ops[hi - 1], c, i)
  }

  // ---- operations that send no values ----

  ghost predicate Silent(a: ClientTables, b: ClientTables) {
    forall k, i :: SentTo(b, k, i) == SentTo(a, k, i)
  }

  lemma {:induction false} SilentTrans(a: ClientTables, b: ClientTables, c: ClientTables)
    requires Silent(a, b) && Silent(b, c)
    ensures Silent(a, c)
  {
    hide SentTo;
  }

  lemma {:induction false} TextSilent(ms: seq<Message>, m: Message, i: TopicIdx)
    requires m.Text?
    ensures SentIn(ms + [m], i) == SentIn(ms, i)
  {
    assert (ms + [m])[..|ms|] == ms;
    assert SentIn(ms, i) + [] == SentIn(ms, i);
  }

  lemma {:induction false} RespondSilent(c: ClientTables, i: TopicIdx, topic: Topic, pubuid: PubUID, idx: ClientIdx)
    requires idx in c.clients
    ensures Silent(c, Respond(c, i, topic, pubuid, idx))
  {
    var m := AnnounceOf(topic, i, Some(AsI32(pubuid)));
    assert m.Text?;
    hide AnnounceOf, SentIn;
    forall k, h ensures SentTo(Respond(c, i, topic, pubuid, idx), k, h) == SentTo(c, k, h) {
      TextSilent(GetOr(c.outboxes, idx, []), m, h);
      NothingSent(h);
    }
  }

  lemma {:induction false} NothingSent(i: TopicIdx)
    ensures SentIn([], i) == []
  {}

  lemma {:induction false} ToldSilent(c: ClientTables, whom: set<ClientIdx>, i: TopicIdx, m: Message)
    requires m.Text?
    ensures Silent(c, Told(c, whom, i, m))
  {
    hide SentIn;
    forall k, h ensures SentTo(Told(c, whom, i, m), k, h) == SentTo(c, k, h) {
      if k in c.outboxes {
        TextSilent(c.outboxes[k], m, h);
      }
    }
  }

  lemma {:induction false} AnnounceSilent(st: State, i: TopicIdx, response: Option<(PubUID, ClientIdx)>)
    ensures Silent(st.c, AnnounceTopic(st, i, response).st.c)
  {
    hide Silent, Respond, Told, Interested, SubsUntouched, SeatsUntouched;
    SilentRefl(st.c);
    if AnnounceTopic(st, i, response).out.Ok? {
      var topic := st.t.topics[i];
      var m := AnnounceOf(topic, i, None);
      match response
      case None => ToldSilent(st.c, Interested(st.s, topic.name), i, m);
      case Some((pubuid, idx)) =>
        RespondSilent(st.c, i, topic, pubuid, idx);
        var c1 := Respond(st.c, i, topic, pubuid, idx);
        ToldSilent(c1, Interested(st.s, topic.name), i, m);
        SilentTrans(st.c, c1, Told(c1, Interested(st.s, topic.name), i, m));
    }
  }

  lemma {:induction false} SilentRefl(c: ClientTables)
    ensures Silent(c, c)
  {}

  lemma {:induction false} LeafClients(st: State, topic: Topic)
    requires '$' in topic.name
    ensures AddTopic(st, topic).st.c == st.c
  {
    hide SubsUntouched, SeatsUntouched;
  }

  lemma {:induction false} AddMetaSilent(st: State, name: string)
    requires '$' in name
    ensures Silent(st.c, AddMeta(st, name).st.c)
  {
    hide Silent, AddTopic, AnnounceTopic, SubsUntouched, SeatsUntouched;
    LeafClients(st, NewMeta(name));
    SilentRefl(st.c);
    var r := AddTopic(st, NewMeta(name));
    if r.out.Ok? {
      AnnounceSilent(r.st, r.out.value, None);
    }
  }

  lemma {:induction false} AddTopicSilent(st: State, topic: Topic)
    ensures Silent(st.c, AddTopic(st, topic).st.c)
  {
    hide Silent, Alloc, AddMeta, PubMeta, SubMeta, SubsUntouched, SeatsUntouched;
    SilentRefl(st.c);
    if '$' in topic.name {
      LeafClients(st, topic);
    } else if topic.name !in st.t.topicMap {
      AllocClients(st, topic);
      MetaNames(topic.name);
      var st1 := Alloc(st, topic);
      AddMetaSilent(st1, PubMeta(topic.name));
      var p := AddMeta(st1, PubMeta(topic.name));
      AddMetaSilent(p.st, SubMeta(topic.name));
      var s := AddMeta(p.st, SubMeta(topic.name));
      SilentTrans(st.c, p.st.c, s.st.c);
    }
  }

  lemma {:induction false} AllocClients(st: State, topic: Topic)
    ensures Alloc(st, topic).c == st.c
  {}

  lemma {:induction false} SameOutboxes(a: ClientTables, b: ClientTables)
    requires b.outboxes == a.outboxes
    ensures Silent(a, b)
  {}

  lemma {:induction false} BindOutboxes(st: State, c: ClientIdx, pubuid: PubUID, i: TopicIdx, name: string)
    requires c in st.c.clients
    ensures BindPub(st, c, pubuid, i, name).c.outboxes == st.c.outboxes
  {}

  lemma {:induction false} UpdateClients(st: State, c: ClientIdx, entry: ClientPublisherMTE, merge: bool)
    ensures UpdatePublishers(st, c, entry, merge).st.c == st.c
  {}

  lemma {:induction false} PublishSilent(st: State, p: PublishTopic, c: ClientIdx)
    ensures Silent(st.c, PublishStep(st, p, c).st.c)
  {
    hide Silent, AddTopic, AnnounceTopic, BindPub, UpdatePublishers, SubsUntouched, SeatsUntouched;
    AddTopicSilent(st, FromPublishTopic(p));
    var a := AddTopic(st, FromPublishTopic(p));
    if a.out.Ok? {
      AnnounceSilent(a.st, a.out.value, Some((p.pubuid, c)));
      var b := AnnounceTopic(a.st, a.out.value, Some((p.pubuid, c)));
      SilentTrans(st.c, a.st.c, b.st.c);
      if b.out.Ok? && c in b.st.c.clients {
        BindOutboxes(b.st, c, p.pubuid, a.out.value, p.name);
        var e := BindPub(b.st, c, p.pubuid, a.out.value, p.name);
        SameOutboxes(b.st.c, e.c);
        SilentTrans(st.c, b.st.c, e.c);
        UpdateClients(e, c, ClientPublisherMTE(p.name, p.pubuid), true);
      }
    }
  }

  lemma {:induction false} ReleaseClients(st: State, i: TopicIdx)
    requires i in st.p.pubCount
    ensures Release(st, i).st.c == st.c
  {
    hide Removed, Bump, SubsUntouched, SeatsUntouched;
  }

  lemma {:induction false} UnpublishSilent(st: State, pubuid: PubUID, c: ClientIdx)
    ensures UnpublishStep(st, pubuid, c).st.c.outboxes == st.c.outboxes
  {
    hide Release, UpdatePublishers, SubsUntouched, SeatsUntouched;
    if c in st.c.clients && pubuid in st.c.clients[c].pubs.fwd {
      var i := st.c.clients[c].pubs.fwd[pubuid];
      var name := if i in st.t.topics then st.t.topics[i].name else "";
      var st1 := UnbindPub(st, c, pubuid);
      if i in st1.p.pubCount {
        ReleaseClients(st1, i);
        UpdateClients(DropCount(Release(st1, i).st, i), c, ClientPublisherMTE(name, pubuid), false);
      }
    }
  }

  lemma {:induction false} ReleaseAllClients(st: State, pubs: map<PubUID, TopicIdx>, order: seq<PubUID>)
    requires forall p | p in order :: p in pubs
    ensures ReleaseAll(st, pubs, order).st.c == st.c
  {
    hide Release, SubsUntouched, SeatsUntouched;
    if order != [] {
      var front, last := order[..|order| - 1], order[|order| - 1];
      assert last in order && forall p | p in front :: p in order;
      ReleaseAllClients(st, pubs, front);
      var before := ReleaseAll(st, pubs, front).st;
      if pubs[last] in before.p.pubCount {
        ReleaseClients(before, pubs[last]);
      }
    }
  }

  lemma {:induction false} DropClients(st: State, idx: ClientIdx)
    ensures DropMetatopics(st, idx).st.c == st.c
  {
    hide Removed, SubsUntouched, SeatsUntouched;
  }

  lemma {:induction false} DisconnectSilent(st: State, identity: Identity, order: seq<PubUID>)
    requires forall p | p in order :: p in PubsOf(st.c, identity)
    ensures DisconnectStep(st, identity, order).st.c.outboxes == st.c.outboxes
  {
    hide ReleaseAll, DropMetatopics, PubsOf, SubsUntouched, SeatsUntouched;
    if identity in st.c.clientMap {
      var st1 := Unregister(st, identity);
      ReleaseAllClients(st1, PubsOf(st.c, identity), order);
      DropClients(ReleaseAll(st1, PubsOf(st.c, identity), order).st, st.c.clientMap[identity]);
    }
  }

  lemma {:induction false} ConnectSilent(st: State, identity: Identity)
    requires Inv(st)
    ensures Silent(st.c, ConnectStep(st, identity).st.c)
  {
    SeatedPart(st);
    hide Inv, AddTopic, ClientPub, ClientSub, RenamedIdentity, SentIn, SubsUntouched, SeatsUntouched;
    if identity !in st.c.clientMap {
      var renamed := RenamedIdentity(st.c.clients, identity);
      var st1 := Register(st, renamed);
      assert st1.c.outboxes == st.c.outboxes[st.counters.clientIdx := []] && st.counters.clientIdx !in st.c.outboxes;
      forall i { NothingSent(i); }
      assert Silent(st.c, st1.c);
      hide Silent, Register;
      ClientNames(renamed.name);
      LeafClients(st1, NewMeta(ClientPub(renamed.name)));
      LeafClients(AddTopic(st1, NewMeta(ClientPub(renamed.name))).st, NewMeta(ClientSub(renamed.name)));
    } else {
      SilentRefl(st.c);
    }
  }

  lemma {:induction false} SilentOps(st: State, op: Op)
    requires Inv(st) && Enabled(st, op) && !op.OpSubscribe? && !op.OpSendOut?
    ensures Silent(st.c, Step(st, op).c)
  {
    hide Inv, Silent, SubsUntouched, SeatsUntouched, ConnectStep, DisconnectStep, PublishStep, UnpublishStep;
    match op
    case OpConnect(identity) => ConnectSilent(st, identity);
    case OpDisconnect(identity, order) =>
      DisconnectSilent(st, identity, order);
      SameOutboxes(st.c, Step(st, op).c);
    case OpPublish(topic, c) => PublishSilent(st, topic, c);
    case OpUnpublish(pubuid, c) =>
      UnpublishSilent(st, pubuid, c);
      SameOutboxes(st.c, Step(st, op).c);
    case OpUnsubscribe(_, _) => SameOutboxes(st.c, Step(st, op).c);
    case OpSetProperties(_, _) => SameOutboxes(st.c, Step(st, op).c);
    case OpSetValue(_, _) => SameOutboxes(st.c, Step(st, op).c);
    case OpClientValue(_, _, _) => SameOutboxes(st.c, Step(st, op).c);
  }

  // ---- operations that send values ----

  lemma {:induction false} NoSeat(st: State, c: ClientIdx)
    requires Inv(st) && c !in st.c.outboxes
    ensures c in st.c.clients ==> !st.c.clients[c].hasOutput
  {
    hide TopicInv, OwnNames, IndexInv, SubInv, MailInv, Routed, Owned;
  }

  lemma {:induction false} WelcomedOthers(c: ClientTables, d: ClientIdx, sub: Subscription, s: SubIdx, v: Visit, k: ClientIdx)
    requires d in c.clients && (d != k || !c.clients[d].hasOutput)
    ensures k in Welcomed(c, d, sub, s, v).outboxes <==> k in c.outboxes
    ensures k in c.outboxes ==> Welcomed(c, d, sub, s, v).outboxes[k] == c.outboxes[k]
  {}

  lemma {:induction false} SubscribeSendsTo(st: State, sub: Subscription, d: ClientIdx, order: seq<string>, now: nat, c: ClientIdx, i: TopicIdx)
    requires Inv(st) && Enumerates(order, st.t.topicMap.Keys)
    ensures SentTo(SubscribeStep(st, sub, d, order, now).st.c, c, i) == SentTo(st.c, c, i) + SentFor(st, OpSubscribe(sub, d, order, now), c, i)
  {
    hide Inv, SentIn, Listed, CachedFor, Matches, VisitAll, Welcomed, Ids, NewStore, BirthOf, SubsUntouched, SeatsUntouched;
    if d in st.c.clients {
      if d == c && c in st.c.outboxes {
        hide SubscribeStep;
        SubscribeSends(st, sub, c, order, now, i);
      } else {
        SubscribeShape(st, sub, d, order, now);
        if c !in st.c.outboxes {
          NoSeat(st, c);
        }
        var s := st.counters.subIdx;
        hide SubscribeStep;
        WelcomedOthers(st.c, d, sub, s, VisitAll(st.t, s, Matches(st.t.topicMap, sub, order)), c);
      }
    }
  }

  /** A pass sends nothing to a client without a connection. */
  lemma {:induction false} SendOutSkips(st: State, picks: seq<Pick>, now: nat, c: ClientIdx)
    requires (forall p | p in picks :: CanPick(st.s, p)) && (c in st.c.clients ==> !st.c.clients[c].hasOutput)
    ensures var r := SendOutStep(st, picks, now);
      r.c.clients == st.c.clients && (c in r.c.outboxes <==> c in st.c.outboxes) && (c in st.c.outboxes ==> r.c.outboxes[c] == st.c.outboxes[c])
  {
    if picks != [] {
      var front, last := picks[..|picks| - 1], picks[|picks| - 1];
      assert forall p | p in front :: p in picks;
      assert CanPick(st.s, last);
      SendOutSkips(st, front, now, c);
      hide SendSub;
      SendSubSkips(SendOutStep(st, front, now), last, now, c);
    }
  }

  lemma {:induction false} SendSubSkips(st: State, p: Pick, now: nat, c: ClientIdx)
    requires CanPick(st.s, p) && (c in st.c.clients ==> !st.c.clients[c].hasOutput)
    ensures var r := SendSub(st, p, now);
      r.c.clients == st.c.clients && (c in r.c.outboxes <==> c in st.c.outboxes) && (c in st.c.outboxes ==> r.c.outboxes[c] == st.c.outboxes[c])
  {
    hide Batches, Joined;
  }

  lemma {:induction false} PicksValid(st: State, picks: seq<Pick>, now: nat)
    requires Enabled(st, OpSendOut(picks, now))
    ensures forall p | p in picks :: ValidPick(st.s, p) && CanPick(st.s, p)
    ensures forall j, k :: 0 <= j < k < |picks| ==> picks[j].s != picks[k].s
  {}

  lemma {:induction false} SentForPass(st: State, picks: seq<Pick>, now: nat, c: ClientIdx, i: TopicIdx)
    requires Enabled(st, OpSendOut(picks, now)) && forall p | p in picks :: CanPick(st.s, p)
    ensures SentFor(st, OpSendOut(picks, now), c, i) == if c in st.c.clients && c in st.c.outboxes then WaitingFor(st.s, picks, c, i) else []
  {
    hide WaitingFor, CanPick, Enabled, SubscribeStep;
  }

  lemma {:induction false} SendOutSendsTo(st: State, picks: seq<Pick>, now: nat, c: ClientIdx, i: TopicIdx)
    requires Inv(st) && Enabled(st, OpSendOut(picks, now))
    ensures forall p | p in picks :: CanPick(st.s, p)
    ensures SentTo(SendOutStep(st, picks, now).c, c, i) == SentTo(st.c, c, i) + SentFor(st, OpSendOut(picks, now), c, i)
  {
    hide Inv, Enabled, SentFor, SentIn, SendOutStep, MailFor, WaitingFor, ValidPick, CanPick, SubsUntouched, SeatsUntouched;
    PicksValid(st, picks, now);
    SentForPass(st, picks, now, c, i);
    if c in st.c.outboxes && c in st.c.clients {
      SeatedPart(st);
      SendOutMails(st, picks, now, c);
      MailCarries(st.s, picks, c, i);
      SentInAppend(st.c.outboxes[c], MailFor(st.s, picks, c), i);
    } else {
      if c !in st.c.outboxes {
        NoSeat(st, c);
      }
      SendOutSkips(st, picks, now, c);
    }
  }

  lemma {:induction false} StepSends(st: State, op: Op, c: ClientIdx, i: TopicIdx)
    requires Inv(st) && Enabled(st, op)
    ensures SentTo(Step(st, op).c, c, i) == SentTo(st.c, c, i) + SentFor(st, op, c, i)
  {
    match op
    case OpSubscribe(sub, d, order, now) =>
      hide Inv, SubscribeStep, SentTo, SentFor;
      SubscribeSendsTo(st, sub, d, order, now, c, i);
    case OpSendOut(picks, now) =>
      hide Inv, SendOutStep, SentTo, SentFor;
      SendOutSendsTo(st, picks, now, c, i);
    case _ =>
      hide Inv, Step, SentTo;
      SilentOps(st, op);
      assert SentTo(Step(st, op).c, c, i) == SentTo(st.c, c, i);
  }

  lemma {:induction false} StartSilent(states: seq<State>, ops: seq<Op>, c: ClientIdx, i: TopicIdx)
    requires IsRun(states, ops)
    ensures SentTo(states[0].c, c, i) == []
  {
    var checks :| states[0] == Init(checks);
    hide IsRun, Step, Enabled;
    AllocClients(Blank(checks), NewMeta("$clients"));
    AllocClients(Alloc(Blank(checks), NewMeta("$clients")), NewMeta("$serversub"));
    AllocClients(Alloc(Alloc(Blank(checks), NewMeta("$clients")), NewMeta("$serversub")), NewMeta("$serverpub"));
    hide Alloc;
  }

  /** At every point of every run the values in a channel, topic by topic and in order, are those that the operations so far sent. */
  lemma {:induction false} ChannelHistory(states: seq<State>, ops: seq<Op>, c: ClientIdx, i: TopicIdx, j: nat)
    requires IsRun(states, ops) && j <= |ops|
    ensures SentTo(states[j].c, c, i) == SentBy(states, ops, c, i, j)
  {
    hide Inv, Init, Step, Enabled, SentTo, SentFor;
    if j == 0 {
      StartSilent(states, ops, c, i);
    } else {
      ChannelHistory(states, ops, c, i, j - 1);
      RunInv(states, ops, j - 1);
      StepSends(states[j - 1], ops[j - 1], c, i);
    }
  }

  // ---- a client with one subscription to a topic ----

  /** Before operation `j`, no subscribe of client `c` other than operation `k` was listed for topic `i`. */
  predicate OnlyListed(states: seq<State>, ops: seq<Op>, k: nat, j: nat, c: ClientIdx, i: TopicIdx)
    requires j <= |ops| < |states|
  {
    forall m | 0 <= m < j && m != k && Subscribes(states, ops, m) && ops[m].client == c :: !Listed(states[m + 1].t, states[m].counters.subIdx, i)
  }

  /** Nothing of the topic waits for any other subscription of the client. */
  ghost predicate OthersIdle(s: SubTables, c: ClientIdx, own: SubIdx, i: TopicIdx) {
    forall k | k in s.subscriptions && k in s.subValues && s.subscriptions[k].1 == c && k != own :: s.subValues[k].Pending(i) == []
  }

  lemma {:induction false} IdleAt(states: seq<State>, ops: seq<Op>, k: nat, j: nat, m: nat, c: ClientIdx, i: TopicIdx)
    requires IsRun(states, ops) && k < j <= |ops| && m <= j && Subscribes(states, ops, k) && OnlyListed(states, ops, k, j, c, i)
    ensures OthersIdle(states[m].s, c, states[k].counters.subIdx, i)
  {
    hide Init, Step, Enabled, Listed, ReceivedIn, Subscribes;
    forall s | s in states[m].s.subscriptions && s in states[m].s.subValues && states[m].s.subscriptions[s].1 == c && s != states[k].counters.subIdx
      ensures states[m].s.subValues[s].Pending(i) == []
    {
      Origin(states, ops, m, s);
      var b: nat :| b < m && MadeBy(states, ops, s, b);
      OwnedSince(states, ops, b, m, s);
      Conservation(states, ops, b, m, i);
      NothingReceived(states, ops, s, i, b + 1, m);
    }
  }

  lemma {:induction false} OwnedSince(states: seq<State>, ops: seq<Op>, b: nat, m: nat, s: SubIdx)
    requires IsRun(states, ops) && b < m <= |ops| && MadeBy(states, ops, s, b) && s in states[m].s.subscriptions
    ensures states[m].s.subscriptions[s] == (ops[b].sub, ops[b].client)
  {
    hide Init, Step, Enabled, Listed, DrainedOf;
    BirthFacts(states, ops, b);
    SameSubscription(states, ops, s, b + 1, m);
  }

  lemma {:induction false} NothingReceived(states: seq<State>, ops: seq<Op>, s: SubIdx, i: TopicIdx, lo: nat, hi: nat)
    requires |states| == |ops| + 1 && lo <= hi <= |ops| && s in states[hi].s.subValues && ReceivedIn(states, ops, s, i, lo, hi) == []
    ensures states[hi].s.subValues[s].Pending(i) == []
  {}

  lemma {:induction false} PickedMore(front: seq<Pick>, last: Pick, own: SubIdx)
    requires forall k | 0 <= k < |front| :: front[k].s != last.s
    ensures Picked(front + [last], own) <==> Picked(front, own) || last.s == own
    ensures last.s == own ==> !Picked(front, own)
  {
    var picks := front + [last];
    if Picked(front, own) {
      var k :| 0 <= k < |front| && front[k].s == own;
      assert picks[k].s == own;
    }
    assert picks[|front|] == last;
    assert forall k | 0 <= k < |front| :: picks[k] == front[k];
  }

  lemma {:induction false} IdlePending(s: SubTables, c: ClientIdx, own: SubIdx, i: TopicIdx, k: SubIdx)
    requires OthersIdle(s, c, own, i) && k in s.subscriptions && k in s.subValues && s.subscriptions[k].1 == c && k != own
    ensures s.subValues[k].Pending(i) == []
  {}

  /** A pass sends what waits for the one subscription, if it visits it. */
  lemma {:induction false} WaitingOne(s: SubTables, picks: seq<Pick>, c: ClientIdx, own: SubIdx, i: TopicIdx)
    requires forall p | p in picks :: CanPick(s, p)
    requires forall j, k :: 0 <= j < k < |picks| ==> picks[j].s != picks[k].s
    requires OthersIdle(s, c, own, i)
    ensures WaitingFor(s, picks, c, i) ==
      if Picked(picks, own) && own in s.subscriptions && own in s.subValues && s.subscriptions[own].1 == c then s.subValues[own].Pending(i) else []
  {
    hide Picked, OthersIdle, StoredSubValue.Pending;
    if picks == [] {
      PickedNone(own);
    } else {
      var front, last := picks[..|picks| - 1], picks[|picks| - 1];
      assert forall p | p in front :: p in picks;
      assert last in picks && CanPick(s, last);
      WaitingOne(s, front, c, own, i);
      assert picks == front + [last];
      PickedMore(front, last, own);
      if last.s != own && s.subscriptions[last.s].1 == c {
        IdlePending(s, c, own, i, last.s);
      }
    }
  }

  lemma {:induction false} PickedNone(own: SubIdx)
    ensures !Picked([], own)
  {}

  lemma {:induction false} PassOne(st: State, op: Op, c: ClientIdx, own: SubIdx, i: TopicIdx)
    requires Enabled(st, op) && op.OpSendOut? && OthersIdle(st.s, c, own, i) && c in st.c.outboxes
    requires own in st.s.subscriptions ==> st.s.subscriptions[own].1 == c
    ensures SentFor(st, op, c, i) == DrainedBy(st, op, own, i)
  {
    assert forall p | p in op.picks :: ValidPick(st.s, p);
    WaitingOne(st.s, op.picks, c, own, i);
    hide Picked, OthersIdle;
  }

  lemma {:induction false} SubscribeOne(states: seq<State>, ops: seq<Op>, m: nat, c: ClientIdx, i: TopicIdx)
    requires IsRun(states, ops) && m < |ops| && ops[m].OpSubscribe?
    ensures SentFor(states[m], ops[m], c, i) ==
      if ops[m].client == c && c in states[m].c.clients && c in states[m].c.outboxes && Listed(states[m + 1].t, states[m].counters.subIdx, i)
      then CachedFor(states[m].t, i) else []
  {
    hide Init, SubscribeStep, Listed, CachedFor, SendOutStep;
  }

  /** The operations before the subscription is made send nothing. */
  lemma {:induction false} SentBefore(states: seq<State>, ops: seq<Op>, k: nat, j: nat, m: nat, c: ClientIdx, i: TopicIdx)
    requires IsRun(states, ops) && k < j <= |ops| && m < k && Subscribes(states, ops, k) && OnlyListed(states, ops, k, j, c, i)
    ensures SentFor(states[m], ops[m], c, i) == []
  {
    hide Inv, Init, Step, Enabled, Listed, CachedFor;
    EnabledAt(states, ops, m);
    if ops[m].OpSubscribe? {
      SubscribeOne(states, ops, m, c, i);
    } else if ops[m].OpSendOut? && c in states[m].c.outboxes {
      IdleAt(states, ops, k, j, m, c, i);
      RunInv(states, ops, m);
      SubsBelow(states[m]);
      RunLater(states, ops, m, k);
      PassOne(states[m], ops[m], c, states[k].counters.subIdx, i);
    }
    hide OnlyListed, OthersIdle, SentFor;
    if !ops[m].OpSubscribe? && !(ops[m].OpSendOut? && c in states[m].c.outboxes) {
      QuietFor(states[m], ops[m], c, i);
    }
  }

  lemma {:induction false} QuietFor(st: State, op: Op, c: ClientIdx, i: TopicIdx)
    requires Enabled(st, op) && !op.OpSubscribe? && !(op.OpSendOut? && c in st.c.outboxes)
    ensures SentFor(st, op, c, i) == []
  {
    hide WaitingFor;
  }

  lemma {:induction false} EnabledAt(states: seq<State>, ops: seq<Op>, m: nat)
    requires IsRun(states, ops) && m < |ops|
    ensures Enabled(states[m], ops[m])
  {
    hide Enabled, Step, Init;
  }

  lemma {:induction false} SubsBelow(st: State)
    requires Inv(st)
    ensures forall s | s in st.s.subscriptions :: s < st.counters.subIdx
  {
    hide TopicInv, OwnNames, ClientInv, IndexInv, MailInv, Delivered;
  }

  /** The operations after that send what they drain for it. */
  lemma {:induction false} SentAfter(states: seq<State>, ops: seq<Op>, k: nat, j: nat, m: nat, c: ClientIdx, i: TopicIdx)
    requires IsRun(states, ops) && k < m < j <= |ops| && Subscribes(states, ops, k) && OnlyListed(states, ops, k, j, c, i)
    requires ops[k].client == c && c in states[k].c.outboxes
    ensures SentFor(states[m], ops[m], c, i) == DrainedBy(states[m], ops[m], states[k].counters.subIdx, i)
  {
    hide Inv, Init, Step, Enabled, Listed, CachedFor, DrainedBy;
    EnabledAt(states, ops, m);
    var own := states[k].counters.subIdx;
    if ops[m].OpSubscribe? {
      SubscribeOne(states, ops, m, c, i);
      NotDrained(states[m], ops[m], own, i);
    } else if ops[m].OpSendOut? {
      IdleAt(states, ops, k, j, m, c, i);
      RunLater(states, ops, k, m);
      if own in states[m].s.subscriptions {
        OwnedSince(states, ops, k, m, own);
      }
      PassOne(states[m], ops[m], c, own, i);
    } else {
      NotDrained(states[m], ops[m], own, i);
      hide OnlyListed, OthersIdle;
      QuietFor(states[m], ops[m], c, i);
    }
  }

  lemma {:induction false} NotDrained(st: State, op: Op, s: SubIdx, i: TopicIdx)
    requires !op.OpSendOut?
    ensures DrainedBy(st, op, s, i) == []
  {}

  lemma {:induction false} SentBySoFar(states: seq<State>, ops: seq<Op>, k: nat, j: nat, m: nat, c: ClientIdx, i: TopicIdx)
    requires IsRun(states, ops) && k < j <= |ops| && m <= j && Subscribes(states, ops, k) && OnlyListed(states, ops, k, j, c, i)
    requires ops[k].client == c && c in states[k].c.outboxes
    ensures SentBy(states, ops, c, i, m) ==
      if m <= k then []
      else (if Listed(states[k + 1].t, states[k].counters.subIdx, i) then CachedFor(states[k].t, i) else [])
           + DrainedIn(states, ops, states[k].counters.subIdx, i, k + 1, m)
  {
    hide Init, Step, Enabled, Listed, CachedFor, DrainedBy, SentFor, OnlyListed;
    if m > 0 {
      SentBySoFar(states, ops, k, j, m - 1, c, i);
      if m - 1 < k {
        SentBefore(states, ops, k, j, m - 1, c, i);
      } else if m - 1 == k {
        SubscribeOne(states, ops, k, c, i);
      } else {
        SentAfter(states, ops, k, j, m - 1, c, i);
      }
    }
  }

  lemma {:induction false} HasOutbox(states: seq<State>, ops: seq<Op>, k: nat, c: ClientIdx)
    requires IsRun(states, ops) && k <= |ops| && c in states[k].c.clients && c != SERVER_CLIENT_IDX
    ensures c in states[k].c.outboxes
  {
    hide Inv, Init, Step, Enabled;
    RunInv(states, ops, k);
    SeatedPart(states[k]);
  }

  /** The channel of a client with one subscription listed for a topic: the cached value the subscription found, then what reached
      the subscription, short of what is still waiting. */
  lemma {:induction false} ChannelCarries(states: seq<State>, ops: seq<Op>, k: nat, j: nat, c: ClientIdx, i: TopicIdx)
    requires IsRun(states, ops) && Subscribes(states, ops, k) && k < j <= |ops| && ops[k].client == c != SERVER_CLIENT_IDX
    requires OnlyListed(states, ops, k, j, c, i) && states[k].counters.subIdx in states[j].s.subscriptions
    ensures var s := states[k].counters.subIdx;
      && s in states[j].s.subValues
      && SentTo(states[j].c, c, i) + states[j].s.subValues[s].Pending(i) ==
           (if Listed(states[k + 1].t, s, i) then CachedFor(states[k].t, i) else []) + ReceivedIn(states, ops, s, i, k + 1, j)
  {
    hide Inv, Init, Step, Enabled, Listed, CachedFor, DrainedIn, SentTo, SentBy, OnlyListed, SentFor, StoredSubValue.Pending;
    HasOutbox(states, ops, k, c);
    ChannelHistory(states, ops, c, i, j);
    SentBySoFar(states, ops, k, j, j, c, i);
    RunInv(states, ops, j);
    StillDelivered(states[j], states[k].counters.subIdx);
  }

  /** Of an `All` subscription nothing is lost on the way: the channel and what still waits for it hold the cached value it found
      and then, in order and once, every value the topic accepted since. */
  lemma {:induction false} AcceptedIsSent(states: seq<State>, ops: seq<Op>, k: nat, j: nat, c: ClientIdx, i: TopicIdx)
    requires IsRun(states, ops) && Subscribes(states, ops, k) && k < j <= |ops| && ops[k].client == c != SERVER_CLIENT_IDX
    requires OnlyListed(states, ops, k, j, c, i) && states[k].counters.subIdx in states[j].s.subscriptions
    requires ops[k].sub.WantsAll() && Listed(states[k + 1].t, states[k].counters.subIdx, i)
    ensures var s := states[k].counters.subIdx;
      && s in states[j].s.subValues
      && SentTo(states[j].c, c, i) + states[j].s.subValues[s].Pending(i) == CachedFor(states[k].t, i) + AcceptedIn(states, ops, i, k + 1, j)
  {
    hide IsRun, Listed, CachedFor, ReceivedIn, AcceptedIn, SentTo, OnlyListed, Subscribes, Subscription.WantsAll;
    ChannelCarries(states, ops, k, j, c, i);
    Conservation(states, ops, k, j, i);
  }
}
