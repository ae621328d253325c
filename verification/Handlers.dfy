/** Every handler, at each of its exits, keeps the invariant; so every run does. */
module Handlers {
  import opened Basics
  import opened BiMap
  import opened Protocol
  import opened MetaTopic
  import opened SubValue
  import opened ServerModel
  import opened Mailbox
  import opened Invariants
  import opened TopicSteps
  import opened ClientSteps
  import opened Subscribing
  import opened ValueSteps

  /** The id handed out stands for the name asked for. */
  ghost predicate NamesTopic(st: State, out: Outcome<TopicIdx>, name: string) {
    out.Ok? ==> out.value < |st.tlog.names| && st.tlog.names[out.value] == name
  }

  lemma {:induction false} AnnounceLog(st: State, i: TopicIdx, response: Option<(PubUID, ClientIdx)>)
    ensures AnnounceTopic(st, i, response).st.tlog == st.tlog
  {}

  lemma {:induction false} AddMetaInv(st: State, name: string)
    requires Inv(st) && '$' in name
    ensures Inv(AddMeta(st, name).st) && st.tlog.names <= AddMeta(st, name).st.tlog.names
  {
    hide Inv, Alloc, AddTopic, AnnounceTopic;
    AddTopicLeaf(st, NewMeta(name));
    var r := AddTopic(st, NewMeta(name));
    AnnounceTopicInv(r.st, r.out.value, None);
    AnnounceLog(r.st, r.out.value, None);
  }

  lemma {:induction false} AddTopicLeaf(st: State, topic: Topic)
    requires Inv(st) && '$' in topic.name
    ensures var r := AddTopic(st, topic); Inv(r.st) && r.out.Ok? && NamesTopic(r.st, r.out, topic.name) && st.tlog.names <= r.st.tlog.names
  {
    AllocInv(st, topic);
    assert TopicInv(st.t, st.tlog, st.counters.topicIdx);
    hide Inv, Cached, HaveLists;
  }

  lemma {:induction false} AllocNames(st: State, topic: Topic)
    requires |st.tlog.names| == st.counters.topicIdx
    ensures NamesTopic(Alloc(st, topic), Ok(st.counters.topicIdx), topic.name)
  {}

  lemma {:induction false} NamesTopicLater(st: State, st': State, out: Outcome<TopicIdx>, name: string)
    requires NamesTopic(st, out, name) && st.tlog.names <= st'.tlog.names
    ensures NamesTopic(st', out, name)
  {}

  /** An ordinary new topic: three allocations, two announcements. */
  lemma {:induction false} AddOrdinaryInv(st: State, topic: Topic)
    requires Inv(st) && '$' !in topic.name && topic.name !in st.t.topicMap
    ensures var r := AddTopic(st, topic); Inv(r.st) && NamesTopic(r.st, r.out, topic.name)
  {
    var st1 := Alloc(st, topic);
    AllocNames(st, topic);
    hide Inv, Alloc, PubMeta, SubMeta, AddMeta, NamesTopic;
    AllocInv(st, topic);
    MetaNames(topic.name);
    AddMetaInv(st1, PubMeta(topic.name));
    var p := AddMeta(st1, PubMeta(topic.name));
    NamesTopicLater(st1, p.st, Ok(st.counters.topicIdx), topic.name);
    AddMetaInv(p.st, SubMeta(topic.name));
    var s := AddMeta(p.st, SubMeta(topic.name));
    NamesTopicLater(p.st, s.st, Ok(st.counters.topicIdx), topic.name);
    FailedNames(p.st, p.out, topic.name);
    FailedNames(s.st, s.out, topic.name);
  }

  lemma {:induction false} FailedNames<T>(st: State, out: Outcome<T>, name: string)
    ensures out.Err? ==> NamesTopic(st, Err(out.error), name)
  {}

  lemma {:induction false} AddTopicInv(st: State, topic: Topic)
    requires Inv(st)
    ensures var r := AddTopic(st, topic); Inv(r.st) && NamesTopic(r.st, r.out, topic.name)
  {
    if topic.name in st.t.topicMap {
      assert MapNamed(st.t.topicMap, st.tlog.names);
    } else if '$' in topic.name {
      hide Inv;
      AddTopicLeaf(st, topic);
    } else {
      hide Inv;
      AddOrdinaryInv(st, topic);
    }
  }

  lemma {:induction false} PublishInv(st: State, p: PublishTopic, c: ClientIdx)
    requires Inv(st)
    ensures Inv(PublishStep(st, p, c).st)
  {
    hide Inv, AddTopic, BindPub, UpdatePublishers;
    var topic := FromPublishTopic(p);
    AddTopicInv(st, topic);
    var a := AddTopic(st, topic);
    if a.out.Ok? {
      AnnounceTopicInv(a.st, a.out.value, Some((p.pubuid, c)));
      var b := AnnounceTopic(a.st, a.out.value, Some((p.pubuid, c)));
      assert b.st.tlog == a.st.tlog;
      if b.out.Ok? && c in b.st.c.clients {
        BindPubInv(b.st, c, p.pubuid, a.out.value, p.name);
        UpdatePublishersInv(BindPub(b.st, c, p.pubuid, a.out.value, p.name), c, ClientPublisherMTE(p.name, p.pubuid), true);
      }
    }
    hide AnnounceTopic;
  }

  lemma {:induction false} ReleaseInv(st: State, i: TopicIdx)
    requires Inv(st) && i in st.p.pubCount
    ensures Inv(Release(st, i).st)
  {
    hide Inv, RemoveTopic;
    DecrementInv(st, i);
    var d := Decrement(st, i);
    RemoveTopicInv(d.st, i);
  }

  lemma {:induction false} DropCountInv(st: State, i: TopicIdx)
    requires Inv(st)
    ensures Inv(DropCount(st, i))
  {
    hide Inv;
    Unmentioned(st, DropCount(st, i).p, st.tlog.releases);
    assert st.(tlog := st.tlog.(releases := st.tlog.releases)) == st;
  }

  lemma {:induction false} UnpublishInv(st: State, pubuid: PubUID, c: ClientIdx)
    requires Inv(st)
    ensures Inv(UnpublishStep(st, pubuid, c).st)
  {
    hide Inv, Release, DropCount, UpdatePublishers, UnbindPub;
    if c in st.c.clients && pubuid in st.c.clients[c].pubs.fwd {
      var i := st.c.clients[c].pubs.fwd[pubuid];
      var st1 := UnbindPub(st, c, pubuid);
      UnbindPubInv(st, c, pubuid);
      if i in st1.p.pubCount {
        ReleaseInv(st1, i);
        var r := Release(st1, i);
        DropCountInv(r.st, i);
        var name := if i in st.t.topics then st.t.topics[i].name else "";
        UpdatePublishersInv(DropCount(r.st, i), c, ClientPublisherMTE(name, pubuid), false);
      }
    }
  }

  lemma {:induction false} ReleaseAllInv(st: State, pubs: map<PubUID, TopicIdx>, order: seq<PubUID>)
    requires Inv(st) && forall p | p in order :: p in pubs
    ensures Inv(ReleaseAll(st, pubs, order).st)
  {
    hide Inv, Release;
    if order != [] {
      ReleaseAllInv(st, pubs, order[..|order| - 1]);
      var before := ReleaseAll(st, pubs, order[..|order| - 1]);
      var i := pubs[order[|order| - 1]];
      if i in before.st.p.pubCount {
        ReleaseInv(before.st, i);
      }
    }
  }

  lemma {:induction false} DropMetatopicsInv(st: State, idx: ClientIdx)
    requires Inv(st)
    ensures Inv(DropMetatopics(st, idx).st)
  {
    hide Inv, RemoveTopic;
    if idx in st.p.clientMetatopics {
      var metas := st.p.clientMetatopics[idx];
      var st1 := st.(p := st.p.(clientMetatopics := st.p.clientMetatopics - {idx}));
      Unmentioned(st, st1.p, st.tlog.releases);
      assert st.(p := st1.p, tlog := st.tlog.(releases := st.tlog.releases)) == st1;
      RemoveTopicInv(st1, metas.0);
      RemoveTopicInv(RemoveTopic(st1, metas.0).st, metas.1);
    }
  }

  lemma {:induction false} DisconnectInv(st: State, identity: Identity, order: seq<PubUID>)
    requires Inv(st) && forall p | p in order :: p in PubsOf(st.c, identity)
    ensures Inv(DisconnectStep(st, identity, order).st)
  {
    hide Inv, Unregister, ReleaseAll, DropMetatopics, PubsOf;
    if identity in st.c.clientMap {
      var st1 := Unregister(st, identity);
      UnregisterInv(st, identity);
      ReleaseAllInv(st1, PubsOf(st.c, identity), order);
      DropMetatopicsInv(ReleaseAll(st1, PubsOf(st.c, identity), order).st, st.c.clientMap[identity]);
    }
  }

  lemma {:induction false} ClientNames(name: string)
    ensures '$' in ClientPub(name) && '$' in ClientSub(name)
  {
    assert ClientPub(name)[0] == '$' && ClientSub(name)[0] == '$';
  }

  lemma {:induction false} ConnectInv(st: State, identity: Identity)
    requires Inv(st)
    ensures Inv(ConnectStep(st, identity).st)
  {
    hide Inv, Register, RenamedIdentity, AddTopic, ClientPub, ClientSub;
    var renamed := RenamedIdentity(st.c.clients, identity);
    RegisterInv(st, renamed);
    ClientNames(renamed.name);
    AddTopicLeaf(Register(st, renamed), NewMeta(ClientPub(renamed.name)));
    var p := AddTopic(Register(st, renamed), NewMeta(ClientPub(renamed.name)));
    AddTopicLeaf(p.st, NewMeta(ClientSub(renamed.name)));
    var s := AddTopic(p.st, NewMeta(ClientSub(renamed.name)));
    var p' := s.st.p.(clientMetatopics := s.st.p.clientMetatopics[st.counters.clientIdx := (p.out.value, s.out.value)]);
    Unmentioned(s.st, p', s.st.tlog.releases);
    assert s.st.(p := p', tlog := s.st.tlog.(releases := s.st.tlog.releases)) == s.st.(p := p');
  }

  /** A pick of a pass stays valid while other subscriptions are served. */
  lemma {:induction false} SendSubKeepsPick(st: State, p: Pick, now: nat, q: Pick)
    requires ValidPick(st.s, p) && ValidPick(st.s, q) && p.s != q.s
    ensures ValidPick(SendSub(st, p, now).s, q)
  {}

  lemma {:induction false} SendOutKeepsPick(st: State, picks: seq<Pick>, now: nat, q: Pick)
    requires forall p | p in picks :: CanPick(st.s, p) && ValidPick(st.s, p)
    requires ValidPick(st.s, q) && forall p | p in picks :: p.s != q.s
    requires forall j, k :: 0 <= j < k < |picks| ==> picks[j].s != picks[k].s
    ensures ValidPick(SendOutStep(st, picks, now).s, q)
  {
    if picks != [] {
      var front, last := picks[..|picks| - 1], picks[|picks| - 1];
      assert last in picks && ValidPick(st.s, last);
      assert forall p | p in front :: p in picks;
      SendOutKeepsPick(st, front, now, q);
      SendOutKeepsPick(st, front, now, last);
      SendSubKeepsPick(SendOutStep(st, front, now), last, now, q);
      hide ValidPick, SendSub;
    }
  }

  lemma {:induction false} SendOutInv(st: State, picks: seq<Pick>, now: nat)
    requires Inv(st) && forall p | p in picks :: CanPick(st.s, p) && ValidPick(st.s, p)
    requires forall j, k :: 0 <= j < k < |picks| ==> picks[j].s != picks[k].s
    ensures Inv(SendOutStep(st, picks, now))
  {
    hide Inv, ValidPick, SendSub;
    if picks != [] {
      var front, last := picks[..|picks| - 1], picks[|picks| - 1];
      assert last in picks && ValidPick(st.s, last);
      assert forall p | p in front :: p in picks;
      SendOutInv(st, front, now);
      SendOutKeepsPick(st, front, now, last);
      SendSubInv(SendOutStep(st, front, now), last, now);
    }
  }

  lemma {:induction false} StepInv(st: State, op: Op)
    requires Inv(st) && Enabled(st, op)
    ensures Inv(Step(st, op))
  {
    hide Inv, ConnectStep, DisconnectStep, PublishStep, UnpublishStep, SubscribeStep, UnsubscribeStep, SetPropertiesStep, SetValueStep, SendOutStep;
    match op
    case OpConnect(identity) => ConnectInv(st, identity);
    case OpDisconnect(identity, order) => DisconnectInv(st, identity, order);
    case OpPublish(topic, c) => PublishInv(st, topic, c);
    case OpUnpublish(pubuid, c) => UnpublishInv(st, pubuid, c);
    case OpSubscribe(sub, c, order, now) => SubscribeInv(st, sub, c, order, now);
    case OpUnsubscribe(subuid, c) => UnsubscribeInv(st, subuid, c);
    case OpSetProperties(name, update) => SetPropertiesInv(st, name, update);
    case OpSetValue(value, i) => SetValueInv(st, value, i);
    case OpClientValue(c, pubuid, value) =>
      if c in st.c.clients && pubuid in st.c.clients[c].pubs.fwd {
        SetValueInv(st, value, st.c.clients[c].pubs.fwd[pubuid]);
      }
    case OpSendOut(picks, now) =>
      assert forall p | p in picks :: ValidPick(st.s, p);
      SendOutInv(st, picks, now);
  }

  lemma {:induction false} BlankInv(checks: bool)
    ensures Inv(Blank(checks))
  {
    var st := Blank(checks);
    assert TopicInv(st.t, st.tlog, 0);
    assert BiMap.Empty<SubUID, SubIdx>().Inverts();
    assert Seated(st.c.clients, st.c.outboxes, st.c.clientMap, 1);
    assert Routed(st.c.clients, [], map[]);
    assert Owned(st.c.clients, map[]);
    assert ClientInv(st.c, 1, [], map[], map[]);
    assert IndexInv(st.t, map[], map[], st.tlog);
    assert SubInv(st.s, st.log, [], st.counters);
    assert MailInv(st.c, st.s, map[], {}, []);
  }

  lemma {:induction false} InitInv(checks: bool)
    ensures Inv(Init(checks))
  {
    var st := Blank(checks);
    BlankInv(checks);
    hide Inv, Alloc;
    AllocInv(st, NewMeta("$clients"));
    AllocInv(Alloc(st, NewMeta("$clients")), NewMeta("$serversub"));
    AllocInv(Alloc(Alloc(st, NewMeta("$clients")), NewMeta("$serversub")), NewMeta("$serverpub"));
  }

  /** The invariant holds in every state of every run. */
  lemma {:induction false} RunInv(states: seq<State>, ops: seq<Op>, k: nat)
    requires IsRun(states, ops) && k < |states|
    ensures Inv(states[k])
  {
    hide Inv, Init, Step, Enabled;
    if k == 0 {
      var checks :| states[0] == Init(checks);
      InitInv(checks);
    } else {
      RunInv(states, ops, k - 1);
      StepInv(states[k - 1], ops[k - 1]);
    }
  }
}
