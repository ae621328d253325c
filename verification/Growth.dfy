/** What no handler takes back: ids are never reused, and logs and channels only grow. */
module Growth {
  import opened Basics
  import opened BiMap
  import opened Protocol
  import opened MetaTopic
  import opened SubValue
  import opened ServerModel
  import opened Mailbox
  import opened Invariants
  import opened TopicSteps
  import opened ClientSteps
  import opened Subscribing
  import opened Handlers

  /** Topic ids below `n` can leave the tables but not enter them. */
  ghost predicate TopicsLater(t: TopicTables, t': TopicTables, n: nat) {
    && (forall i | i in t'.topics && i < n :: i in t.topics && t'.topics[i].name == t.topics[i].name)
    && (forall name | name in t'.topicMap && t'.topicMap[name] < n :: name in t.topicMap && t.topicMap[name] == t'.topicMap[name])
  }

  ghost predicate LogLater(g: TopicLog, g': TopicLog) {
    && g.names <= g'.names && g.initial <= g'.initial && |g.accepted| <= |g'.accepted|
    && (forall i | 0 <= i < |g.accepted| :: g.accepted[i] <= g'.accepted[i])
  }

  ghost predicate SubsLater(s: SubTables, s': SubTables, births: map<SubIdx, Birth>, births': map<SubIdx, Birth>, n: nat) {
    && (forall k | k in s'.subscriptions && k < n :: k in s.subscriptions && s.subscriptions[k] == s'.subscriptions[k])
    && Submap(births, births')
  }

  ghost predicate ClientsLater(c: ClientTables, c': ClientTables, n: nat) {
    && (forall k | k in c'.clients && k < n :: k in c.clients && c'.clients[k].identity == c.clients[k].identity && c.clients[k].announced <= c'.clients[k].announced)
    && (forall k | k in c.outboxes :: k in c'.outboxes && c.outboxes[k] <= c'.outboxes[k])
  }

  ghost predicate CountersLater(a: Counter, b: Counter) {
    a.topicIdx <= b.topicIdx && a.subIdx <= b.subIdx && a.clientIdx <= b.clientIdx
  }

  /** The second state can come after the first. */
  ghost predicate Later(a: State, b: State) {
    && CountersLater(a.counters, b.counters)
    && TopicsLater(a.t, b.t, a.counters.topicIdx)
    && LogLater(a.tlog, b.tlog)
    && SubsLater(a.s, b.s, a.log.births, b.log.births, a.counters.subIdx)
    && ClientsLater(a.c, b.c, a.counters.clientIdx)
  }

  lemma {:induction false} LaterRefl(a: State)
    ensures Later(a, a)
  {}

  lemma {:induction false} LaterTrans(a: State, b: State, c: State)
    requires Later(a, b) && Later(b, c)
    ensures Later(a, c)
  {
    assert TopicsLater(a.t, c.t, a.counters.topicIdx);
    assert LogLater(a.tlog, c.tlog);
    assert SubsLater(a.s, c.s, a.log.births, c.log.births, a.counters.subIdx);
    assert ClientsLater(a.c, c.c, a.counters.clientIdx);
  }

  // ---- the pieces of a handler ----

  lemma {:induction false} AllocLater(st: State, topic: Topic)
    requires Sized(st.tlog, st.counters.topicIdx)
    ensures Later(st, Alloc(st, topic))
  {}

  lemma {:induction false} RemoveTopicLater(st: State, i: TopicIdx)
    requires TopicsNamed(st.t.topics, st.tlog.names) && MapNamed(st.t.topicMap, st.tlog.names)
    ensures Later(st, RemoveTopic(st, i).st)
  {
    RemovedOutline(st.t, i, st.tlog.names);
    hide Removed;
  }

  lemma {:induction false} ToldEachLater(c: ClientTables, c': ClientTables, whom: set<ClientIdx>, i: TopicIdx, m: Message, n: nat)
    requires ToldEach(c, c', whom, i, m)
    ensures ClientsLater(c, c', n)
  {}

  lemma {:induction false} ClientsLaterTrans(a: ClientTables, b: ClientTables, c: ClientTables, n: nat)
    requires ClientsLater(a, b, n) && ClientsLater(b, c, n)
    ensures ClientsLater(a, c, n)
  {}

  lemma {:induction false} ClientsOnlyLater(st: State, c': ClientTables)
    requires ClientsLater(st.c, c', st.counters.clientIdx)
    ensures Later(st, st.(c := c'))
  {
    LaterRefl(st);
    hide ClientsLater;
  }

  lemma {:induction false} AnnounceLater(st: State, i: TopicIdx, response: Option<(PubUID, ClientIdx)>)
    requires Seated(st.c.clients, st.c.outboxes, st.c.clientMap, st.counters.clientIdx)
    ensures Later(st, AnnounceTopic(st, i, response).st)
  {
    var n := st.counters.clientIdx;
    hide Seated, AnnounceOf, Interested, Respond, Told, Later, ClientsLater, ToldEach;
    if AnnounceTopic(st, i, response).out.Err? {
      LaterRefl(st);
    } else {
      var topic := st.t.topics[i];
      var whom, m := Interested(st.s, topic.name), AnnounceOf(topic, i, None);
      match response
      case None =>
        ToldTold(st.c, whom, i, m);
        ToldEachLater(st.c, Told(st.c, whom, i, m), whom, i, m, n);
        ClientsOnlyLater(st, Told(st.c, whom, i, m));
      case Some((pubuid, idx)) =>
        var c1 := Respond(st.c, i, topic, pubuid, idx);
        RespondLater(st.c, i, topic, pubuid, idx, n);
        ToldTold(c1, whom, i, m);
        ToldEachLater(c1, Told(c1, whom, i, m), whom, i, m, n);
        ClientsLaterTrans(st.c, c1, Told(c1, whom, i, m), n);
        ClientsOnlyLater(st, Told(c1, whom, i, m));
    }
  }

  lemma {:induction false} RespondLater(c: ClientTables, i: TopicIdx, topic: Topic, pubuid: PubUID, idx: ClientIdx, n: nat)
    requires Seated(c.clients, c.outboxes, c.clientMap, n) && idx in c.clients
    ensures ClientsLater(c, Respond(c, i, topic, pubuid, idx), n)
  {
    hide AnnounceOf;
  }

  lemma {:induction false} PubsLater(st: State, c': ClientTables, p': PubTables, releases': seq<nat>, last': map<(ClientIdx, PubUID), string>)
    requires c'.clients.Keys <= st.c.clients.Keys && c'.outboxes == st.c.outboxes
    requires forall k | k in c'.clients :: c'.clients[k].identity == st.c.clients[k].identity && c'.clients[k].announced == st.c.clients[k].announced
    ensures Later(st, st.(c := c', p := p', tlog := st.tlog.(releases := releases'), log := st.log.(lastPublished := last')))
  {}

  lemma {:induction false} RegisterLater(st: State, identity: Identity)
    requires Seated(st.c.clients, st.c.outboxes, st.c.clientMap, st.counters.clientIdx)
    ensures Later(st, Register(st, identity))
  {}

  lemma {:induction false} WelcomedLater(c: ClientTables, idx: ClientIdx, n: nat, sub: Subscription, k: SubIdx, v: Visit)
    requires Seated(c.clients, c.outboxes, c.clientMap, n) && idx in c.clients
    ensures ClientsLater(c, Welcomed(c, idx, sub, k, v), n)
  {
    WelcomedParts(c, idx, n, sub, k, v);
    hide Welcomed;
  }

  lemma {:induction false} EnrolSubsLater(s: SubTables, births: map<SubIdx, Birth>, k: SubIdx, entry: (Subscription, ClientIdx), store: StoredSubValue, now: nat, b: Birth)
    requires k !in births
    ensures SubsLater(s, SubTables(s.subscriptions[k := entry], s.subValues[k := store], s.sendTimes[k := now]), births, births[k := b], k)
  {}

  lemma {:induction false} InvParts(st: State)
    requires Inv(st)
    ensures Sized(st.tlog, st.counters.topicIdx) && TopicsNamed(st.t.topics, st.tlog.names) && MapNamed(st.t.topicMap, st.tlog.names)
    ensures Seated(st.c.clients, st.c.outboxes, st.c.clientMap, st.counters.clientIdx)
  {
    hide IndexInv, SubInv, MailInv;
  }

  lemma {:induction false} NextUnborn(st: State)
    requires Inv(st)
    ensures st.counters.subIdx !in st.log.births
  {
    hide TopicInv, ClientInv, IndexInv, MailInv, Delivered;
  }

  lemma {:induction false} SubscribeLater(st: State, sub: Subscription, c: ClientIdx, order: seq<string>, now: nat)
    requires Inv(st) && Enumerates(order, st.t.topicMap.Keys)
    ensures Later(st, SubscribeStep(st, sub, c, order, now).st)
  {
    hide Inv, VisitAll, Matches, Ids, ClientsLater, Welcomed, SubsLater, LogLater, BirthOf, NewStore, Finds, AnnouncesFound, SendsCached;
    InvParts(st);
    NextUnborn(st);
    if c in st.c.clients {
      var s := st.counters.subIdx;
      var found := Matches(st.t.topicMap, sub, order);
      var v, b := VisitAll(st.t, s, found), BirthOf(st, Ids(found));
      SubscribeShape(st, sub, c, order, now);
      hide SubscribeStep;
      SubscribeVisits(st, sub, order);
      WelcomedLater(st.c, c, st.counters.clientIdx, sub, s, v);
      EnrolSubsLater(st.s, st.log.births, s, (sub, c), NewStore(sub), now, b);
      LaterRefl(st);
    } else {
      LaterRefl(st);
      hide Later;
    }
  }

  lemma {:induction false} UnsubscribeLater(st: State, subuid: i32, c: ClientIdx)
    ensures Later(st, UnsubscribeStep(st, subuid, c).st)
  {
    hide WithoutSub;
  }

  lemma {:induction false} SetPropertiesLater(st: State, name: string, update: PublishProperties)
    ensures Later(st, SetPropertiesStep(st, name, update).st)
  {}

  lemma {:induction false} SetValueLater(st: State, v: TimestampedValue, i: TopicIdx)
    ensures Later(st, SetValueStep(st, v, i).st)
  {}

  lemma {:induction false} SendSubLater(st: State, p: Pick, now: nat)
    requires CanPick(st.s, p) && Seated(st.c.clients, st.c.outboxes, st.c.clientMap, st.counters.clientIdx)
    ensures Later(st, SendSub(st, p, now))
  {
    hide Batches, Joined;
  }

  // ---- the handlers ----

  lemma {:induction false} AddTopicLaterLeaf(st: State, topic: Topic)
    requires Inv(st) && '$' in topic.name
    ensures Later(st, AddTopic(st, topic).st)
  {
    InvParts(st);
    LaterRefl(st);
    AllocLater(st, topic);
    hide Inv, Alloc, Later;
  }

  lemma {:induction false} AddMetaLater(st: State, name: string)
    requires Inv(st) && '$' in name
    ensures Later(st, AddMeta(st, name).st)
  {
    hide Inv, Later, AddTopic, AnnounceTopic;
    var r := AddTopic(st, NewMeta(name));
    AddTopicLeaf(st, NewMeta(name));
    AddTopicLaterLeaf(st, NewMeta(name));
    InvParts(r.st);
    AnnounceLater(r.st, r.out.value, None);
    LaterTrans(st, r.st, AnnounceTopic(r.st, r.out.value, None).st);
  }

  lemma {:induction false} AddTopicLater(st: State, topic: Topic)
    requires Inv(st)
    ensures Later(st, AddTopic(st, topic).st)
  {
    hide Inv, Later, Alloc, AddMeta, PubMeta, SubMeta;
    if topic.name in st.t.topicMap {
      LaterRefl(st);
    } else if '$' in topic.name {
      AddTopicLaterLeaf(st, topic);
    } else {
      var st1 := Alloc(st, topic);
      InvParts(st);
      AllocLater(st, topic);
      AllocInv(st, topic);
      MetaNames(topic.name);
      var p := AddMeta(st1, PubMeta(topic.name));
      AddMetaInv(st1, PubMeta(topic.name));
      AddMetaLater(st1, PubMeta(topic.name));
      LaterTrans(st, st1, p.st);
      AddMetaLater(p.st, SubMeta(topic.name));
      LaterTrans(st, p.st, AddMeta(p.st, SubMeta(topic.name)).st);
    }
  }

  lemma {:induction false} BindPubLater(st: State, c: ClientIdx, pubuid: PubUID, i: TopicIdx, name: string)
    requires c in st.c.clients
    ensures Later(st, BindPub(st, c, pubuid, i, name)) && Later(st, UnbindPub(st, c, pubuid))
  {
    var r, u := BindPub(st, c, pubuid, i, name), UnbindPub(st, c, pubuid);
    PubsLater(st, r.c, st.p, st.tlog.releases, r.log.lastPublished);
    PubsLater(st, u.c, st.p, st.tlog.releases, st.log.lastPublished);
    assert r == st.(c := r.c, p := st.p, tlog := st.tlog.(releases := st.tlog.releases), log := st.log.(lastPublished := r.log.lastPublished));
    assert u == st.(c := u.c, p := st.p, tlog := st.tlog.(releases := st.tlog.releases), log := st.log.(lastPublished := st.log.lastPublished));
    hide Later;
  }

  lemma {:induction false} CountsLater(st: State, p': PubTables, releases': seq<nat>)
    ensures Later(st, st.(p := p', tlog := st.tlog.(releases := releases')))
  {
    PubsLater(st, st.c, p', releases', st.log.lastPublished);
  }

  lemma {:induction false} UpdatePublishersLater(st: State, c: ClientIdx, entry: ClientPublisherMTE, merge: bool)
    ensures Later(st, UpdatePublishers(st, c, entry, merge).st)
  {
    CountsLater(st, UpdatePublishers(st, c, entry, merge).st.p, st.tlog.releases);
    hide Later;
  }

  lemma {:induction false} PublishLater(st: State, p: PublishTopic, c: ClientIdx)
    requires Inv(st)
    ensures Later(st, PublishStep(st, p, c).st)
  {
    hide Inv, Later, AddTopic, AnnounceTopic, BindPub, UpdatePublishers;
    var topic := FromPublishTopic(p);
    var a := AddTopic(st, topic);
    AddTopicInv(st, topic);
    AddTopicLater(st, topic);
    if a.out.Ok? {
      var i := a.out.value;
      var b := AnnounceTopic(a.st, i, Some((p.pubuid, c)));
      InvParts(a.st);
      AnnounceLater(a.st, i, Some((p.pubuid, c)));
      LaterTrans(st, a.st, b.st);
      if b.out.Ok? && c in b.st.c.clients {
        var e := BindPub(b.st, c, p.pubuid, i, p.name);
        BindPubLater(b.st, c, p.pubuid, i, p.name);
        LaterTrans(st, b.st, e);
        UpdatePublishersLater(e, c, ClientPublisherMTE(p.name, p.pubuid), true);
        LaterTrans(st, e, UpdatePublishers(e, c, ClientPublisherMTE(p.name, p.pubuid), true).st);
      }
    }
  }

  lemma {:induction false} ReleaseLater(st: State, i: TopicIdx)
    requires Inv(st) && i in st.p.pubCount
    ensures Later(st, Release(st, i).st)
  {
    hide Inv, Later, RemoveTopic;
    var d := Decrement(st, i);
    CountsLater(st, d.st.p, d.st.tlog.releases);
    assert d.st == st.(p := d.st.p, tlog := st.tlog.(releases := d.st.tlog.releases));
    DecrementInv(st, i);
    InvParts(d.st);
    RemoveTopicLater(d.st, i);
    LaterTrans(st, d.st, RemoveTopic(d.st, i).st);
  }

  lemma {:induction false} UnpublishLater(st: State, pubuid: PubUID, c: ClientIdx)
    requires Inv(st)
    ensures Later(st, UnpublishStep(st, pubuid, c).st)
  {
    hide Inv, Later, Release, DropCount, UpdatePublishers, UnbindPub;
    LaterRefl(st);
    if c in st.c.clients && pubuid in st.c.clients[c].pubs.fwd {
      var i := st.c.clients[c].pubs.fwd[pubuid];
      var st1 := UnbindPub(st, c, pubuid);
      UnbindPubInv(st, c, pubuid);
      BindPubLater(st, c, pubuid, i, "");
      if i in st1.p.pubCount {
        var r := Release(st1, i);
        ReleaseLater(st1, i);
        LaterTrans(st, st1, r.st);
        DropCountLater(r.st, i);
        var name := if i in st.t.topics then st.t.topics[i].name else "";
        var d := DropCount(r.st, i);
        LaterTrans(st, r.st, d);
        UpdatePublishersLater(d, c, ClientPublisherMTE(name, pubuid), false);
        LaterTrans(st, d, UpdatePublishers(d, c, ClientPublisherMTE(name, pubuid), false).st);
      }
    }
  }

  lemma {:induction false} DropCountLater(st: State, i: TopicIdx)
    ensures Later(st, DropCount(st, i))
  {
    CountsLater(st, DropCount(st, i).p, st.tlog.releases);
    assert DropCount(st, i) == st.(p := DropCount(st, i).p, tlog := st.tlog.(releases := st.tlog.releases));
    hide Later;
  }

  lemma {:induction false} ReleaseAllLater(st: State, pubs: map<PubUID, TopicIdx>, order: seq<PubUID>)
    requires Inv(st) && forall p | p in order :: p in pubs
    ensures Later(st, ReleaseAll(st, pubs, order).st)
  {
    hide Inv, Later, Release;
    LaterRefl(st);
    if order != [] {
      var front, last := order[..|order| - 1], order[|order| - 1];
      ReleaseAllLater(st, pubs, front);
      ReleaseAllInv(st, pubs, front);
      var before := ReleaseAll(st, pubs, front);
      if pubs[last] in before.st.p.pubCount {
        ReleaseLater(before.st, pubs[last]);
        LaterTrans(st, before.st, Release(before.st, pubs[last]).st);
      }
    }
  }

  lemma {:induction false} DropMetatopicsLater(st: State, idx: ClientIdx)
    requires Inv(st)
    ensures Later(st, DropMetatopics(st, idx).st)
  {
    hide Inv, Later, RemoveTopic;
    LaterRefl(st);
    if idx in st.p.clientMetatopics {
      var metas := st.p.clientMetatopics[idx];
      var st1 := st.(p := st.p.(clientMetatopics := st.p.clientMetatopics - {idx}));
      CountsLater(st, st1.p, st.tlog.releases);
      Unmentioned(st, st1.p, st.tlog.releases);
      assert st1 == st.(p := st1.p, tlog := st.tlog.(releases := st.tlog.releases));
      InvParts(st1);
      RemoveTopicLater(st1, metas.0);
      RemoveTopicInv(st1, metas.0);
      var r := RemoveTopic(st1, metas.0);
      LaterTrans(st, st1, r.st);
      InvParts(r.st);
      RemoveTopicLater(r.st, metas.1);
      LaterTrans(st, r.st, RemoveTopic(r.st, metas.1).st);
    }
  }

  lemma {:induction false} UnregisterLater(st: State, identity: Identity)
    requires identity in st.c.clientMap
    ensures Later(st, Unregister(st, identity))
  {
    PubsLater(st, Unregister(st, identity).c, st.p, st.tlog.releases, st.log.lastPublished);
  }

  lemma {:induction false} DisconnectLater(st: State, identity: Identity, order: seq<PubUID>)
    requires Inv(st) && forall p | p in order :: p in PubsOf(st.c, identity)
    ensures Later(st, DisconnectStep(st, identity, order).st)
  {
    hide Inv, Later, Unregister, ReleaseAll, DropMetatopics, PubsOf;
    LaterRefl(st);
    if identity in st.c.clientMap {
      var st1 := Unregister(st, identity);
      UnregisterLater(st, identity);
      UnregisterInv(st, identity);
      var pubs := PubsOf(st.c, identity);
      var r := ReleaseAll(st1, pubs, order);
      ReleaseAllLater(st1, pubs, order);
      ReleaseAllInv(st1, pubs, order);
      LaterTrans(st, st1, r.st);
      DropMetatopicsLater(r.st, st.c.clientMap[identity]);
      LaterTrans(st, r.st, DropMetatopics(r.st, st.c.clientMap[identity]).st);
    }
  }

  lemma {:induction false} ConnectLater(st: State, identity: Identity)
    requires Inv(st)
    ensures Later(st, ConnectStep(st, identity).st)
  {
    hide Inv, Later, Register, RenamedIdentity, AddTopic, ClientPub, ClientSub;
    LaterRefl(st);
    var renamed := RenamedIdentity(st.c.clients, identity);
    var st1 := Register(st, renamed);
    InvParts(st);
    RegisterLater(st, renamed);
    RegisterInv(st, renamed);
    ClientNames(renamed.name);
    var p := AddTopic(st1, NewMeta(ClientPub(renamed.name)));
    AddTopicLeaf(st1, NewMeta(ClientPub(renamed.name)));
    AddTopicLaterLeaf(st1, NewMeta(ClientPub(renamed.name)));
    LaterTrans(st, st1, p.st);
    var s := AddTopic(p.st, NewMeta(ClientSub(renamed.name)));
    AddTopicLeaf(p.st, NewMeta(ClientSub(renamed.name)));
    AddTopicLaterLeaf(p.st, NewMeta(ClientSub(renamed.name)));
    LaterTrans(st, p.st, s.st);
    var p' := s.st.p.(clientMetatopics := s.st.p.clientMetatopics[st.counters.clientIdx := (p.out.value, s.out.value)]);
    CountsLater(s.st, p', s.st.tlog.releases);
    assert s.st.(p := p') == s.st.(p := p', tlog := s.st.tlog.(releases := s.st.tlog.releases));
    LaterTrans(st, s.st, s.st.(p := p'));
  }

  lemma {:induction false} SendOutLater(st: State, picks: seq<Pick>, now: nat)
    requires Inv(st) && forall p | p in picks :: CanPick(st.s, p) && ValidPick(st.s, p)
    requires forall j, k :: 0 <= j < k < |picks| ==> picks[j].s != picks[k].s
    ensures Later(st, SendOutStep(st, picks, now))
  {
    hide Inv, Later, ValidPick, SendSub;
    LaterRefl(st);
    if picks != [] {
      var front, last := picks[..|picks| - 1], picks[|picks| - 1];
      assert last in picks && CanPick(st.s, last);
      assert forall p | p in front :: p in picks;
      SendOutLater(st, front, now);
      SendOutInv(st, front, now);
      var before := SendOutStep(st, front, now);
      InvParts(before);
      SendSubLater(before, last, now);
      LaterTrans(st, before, SendSub(before, last, now));
    }
  }

  lemma {:induction false} StepLater(st: State, op: Op)
    requires Inv(st) && Enabled(st, op)
    ensures Later(st, Step(st, op))
  {
    hide Inv, Later, ConnectStep, DisconnectStep, PublishStep, UnpublishStep, SubscribeStep, UnsubscribeStep, SetPropertiesStep, SetValueStep, SendOutStep;
    match op
    case OpConnect(identity) => ConnectLater(st, identity);
    case OpDisconnect(identity, order) => DisconnectLater(st, identity, order);
    case OpPublish(topic, c) => PublishLater(st, topic, c);
    case OpUnpublish(pubuid, c) => UnpublishLater(st, pubuid, c);
    case OpSubscribe(sub, c, order, now) => SubscribeLater(st, sub, c, order, now);
    case OpUnsubscribe(subuid, c) => UnsubscribeLater(st, subuid, c);
    case OpSetProperties(name, update) => SetPropertiesLater(st, name, update);
    case OpSetValue(value, i) => SetValueLater(st, value, i);
    case OpClientValue(c, pubuid, value) =>
      LaterRefl(st);
      if c in st.c.clients && pubuid in st.c.clients[c].pubs.fwd {
        SetValueLater(st, value, st.c.clients[c].pubs.fwd[pubuid]);
      }
    case OpSendOut(picks, now) =>
      assert forall p | p in picks :: ValidPick(st.s, p);
      SendOutLater(st, picks, now);
  }

  /** Over any stretch of any run nothing in `Later` is taken back. */
  lemma {:induction false} RunLater(states: seq<State>, ops: seq<Op>, j: nat, k: nat)
    requires IsRun(states, ops) && j <= k < |states|
    ensures Later(states[j], states[k])
    decreases k
  {
    hide Inv, Later, Init, Step, Enabled;
    if j == k {
      LaterRefl(states[j]);
    } else {
      RunLater(states, ops, j, k - 1);
      RunInv(states, ops, k - 1);
      StepLater(states[k - 1], ops[k - 1]);
      LaterTrans(states[j], states[k - 1], states[k]);
    }
  }
}
