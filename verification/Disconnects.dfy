/** Exactly when a disconnect succeeds, and what it leaves behind. */
module Disconnects {
  import opened Basics
  import opened BiMap
  import opened Protocol
  import opened SubValue
  import opened ServerModel
  import opened Invariants
  import opened TopicSteps
  import opened ClientSteps
  import opened Handlers
  import opened Lockstep
  import opened FreeRuns
  import opened Growth
  import History
  import opened Routing
  import opened Leaving
  import opened TopicLives

  // ---- the metatopics of clients ----

  ghost predicate ServicedState(st: State) {
    Serviced(st.p.clientMetatopics, st.tlog.names)
  }

  lemma {:induction false} ServicedFewer(a: State, b: State)
    requires ServicedState(a) && Submap(b.p.clientMetatopics, a.p.clientMetatopics) && a.tlog.names <= b.tlog.names
    ensures ServicedState(b)
  {
    hide IsClientPub, IsClientSub;
  }

  lemma {:induction false} StepMetas(st: State, op: Op)
    requires Enabled(st, op) && !op.OpConnect?
    ensures Submap(Step(st, op).p.clientMetatopics, st.p.clientMetatopics)
  {
    hide SubsUntouched, DisconnectStep, PublishStep, UnpublishStep, SubscribeStep, UnsubscribeStep, SetPropertiesStep, SetValueStep, SendOutStep;
    match op
    case OpDisconnect(identity, order) => DisconnectMetas(st, identity, order);
    case OpPublish(_, _) =>
    case OpUnpublish(_, _) =>
    case OpSubscribe(sub, c, order, now) => SubscribeSeats(st, sub, c, order, now);
    case OpUnsubscribe(subuid, c) => OtherSeats(st, subuid, c, "", DEFAULT_PROPERTIES, TimestampedValue(0, FrcValue("", [])), 0);
    case OpSetProperties(name, update) => OtherSeats(st, 0, 0, name, update, TimestampedValue(0, FrcValue("", [])), 0);
    case OpSetValue(value, i) => OtherSeats(st, 0, 0, "", DEFAULT_PROPERTIES, value, i);
    case OpClientValue(c, pubuid, value) =>
      if c in st.c.clients && pubuid in st.c.clients[c].pubs.fwd {
        OtherSeats(st, 0, 0, "", DEFAULT_PROPERTIES, value, st.c.clients[c].pubs.fwd[pubuid]);
      }
    case OpSendOut(picks, now) => History.SendOutFrame(st, picks, now);
  }

  lemma {:induction false} DisconnectMetas(st: State, identity: Identity, order: seq<PubUID>)
    requires forall p | p in order :: p in PubsOf(st.c, identity)
    ensures Submap(DisconnectStep(st, identity, order).st.p.clientMetatopics, st.p.clientMetatopics)
  {
    hide ReleaseAll, DropMetatopics, PubsOf, SubsUntouched;
    if identity in st.c.clientMap {
      UnregisterFrame(st, identity);
    }
    hide Unregister;
  }

  lemma {:induction false} ConnectServiced(st: State, identity: Identity)
    requires Inv(st) && ServicedState(st)
    ensures ServicedState(ConnectStep(st, identity).st)
  {
    hide Inv, Serviced, RenamedIdentity, AddTopic, ClientPub, ClientSub, SubsUntouched, SeatsUntouched;
    if identity !in st.c.clientMap {
      var renamed := RenamedIdentity(st.c.clients, identity);
      var st1 := Register(st, renamed);
      RegisterInv(st, renamed);
      RegisterMetas(st, renamed);
      hide Register;
      ServiceShape(renamed.name);
      AddTopicLeaf(st1, NewMeta(ClientPub(renamed.name)));
      var p := AddTopic(st1, NewMeta(ClientPub(renamed.name)));
      AddTopicLeaf(p.st, NewMeta(ClientSub(renamed.name)));
      var s := AddTopic(p.st, NewMeta(ClientSub(renamed.name)));
      LeafSeats(st1, NewMeta(ClientPub(renamed.name)));
      LeafSeats(p.st, NewMeta(ClientSub(renamed.name)));
      ServicedMore(st.p.clientMetatopics, st.tlog.names, s.st.tlog.names, st.counters.clientIdx, p.out.value, s.out.value);
    }
  }

  lemma {:induction false} RegisterMetas(st: State, identity: Identity)
    ensures Register(st, identity).p.clientMetatopics == st.p.clientMetatopics && Register(st, identity).tlog == st.tlog
  {}

  lemma {:induction false} LeafSeats(st: State, topic: Topic)
    ensures AddTopic(st, topic).st.p.clientMetatopics == st.p.clientMetatopics
  {
    hide AddMeta, Alloc, SubsUntouched;
  }

  lemma {:induction false} ServicedMore(metas: map<ClientIdx, (TopicIdx, TopicIdx)>, names: seq<string>, names': seq<string>, c: ClientIdx, p: TopicIdx, s: TopicIdx)
    requires Serviced(metas, names) && names <= names' && IsServicePair((p, s), names')
    ensures Serviced(metas[c := (p, s)], names')
  {
    hide IsClientPub, IsClientSub;
  }

  /** In every reachable state the pair kept for a client is a `$clientpub$` topic and a `$clientsub$` topic. */
  lemma {:induction false} RunServiced(states: seq<State>, ops: seq<Op>, j: nat)
    requires IsRun(states, ops) && j <= |ops|
    ensures ServicedState(states[j])
  {
    hide Inv, Init, Step, Enabled, ServicedState, ConnectStep;
    if j == 0 {
      StartUnserviced(states, ops);
    } else {
      RunServiced(states, ops, j - 1);
      RunInv(states, ops, j - 1);
      StepServiced(states[j - 1], ops[j - 1]);
    }
  }

  lemma {:induction false} StartUnserviced(states: seq<State>, ops: seq<Op>)
    requires IsRun(states, ops)
    ensures ServicedState(states[0])
  {
    var checks :| states[0] == Init(checks);
    hide IsRun, Step, Enabled;
    InitUnserviced(checks);
    hide Init;
  }

  lemma {:induction false} InitUnserviced(checks: bool)
    ensures ServicedState(Init(checks))
  {
    hide Alloc, SubsUntouched;
    assert SeatsUntouched(Blank(checks), Init(checks));
  }

  lemma {:induction false} StepServiced(st: State, op: Op)
    requires Inv(st) && ServicedState(st) && Enabled(st, op)
    ensures ServicedState(Step(st, op))
  {
    if op.OpConnect? {
      hide Inv, ServicedState, ConnectStep;
      ConnectServiced(st, op.identity);
    } else {
      hide Inv, Step, Enabled, ServicedState;
      StepMetas(st, op);
      StepLater(st, op);
      NamesGrow(st, Step(st, op));
      ServicedFewer(st, Step(st, op));
    }
  }

  lemma {:induction false} NamesGrow(a: State, b: State)
    requires Later(a, b)
    ensures a.tlog.names <= b.tlog.names
  {
    hide TopicsLater, SubsLater, ClientsLater, CountersLater;
  }

  // ---- when a disconnect succeeds ----

  lemma {:induction false} DropSucceedsIff(st: State, idx: ClientIdx)
    requires idx in st.p.clientMetatopics
    ensures var metas := st.p.clientMetatopics[idx];
      DropMetatopics(st, idx).out.Ok? <==> Removable(st.t, metas.0) && Removable(Removed(st.t, metas.0).0, metas.1)
  {
    var metas := st.p.clientMetatopics[idx];
    var st1 := st.(p := st.p.(clientMetatopics := st.p.clientMetatopics - {idx}));
    RemoveSucceedsIff(st1, metas.0);
    RemoveSucceedsIff(RemoveTopic(st1, metas.0).st, metas.1);
    RemoveTables(st1, metas.0);
    hide Removed, Removable, RemoveTopic, SubsUntouched, SeatsUntouched;
  }

  lemma {:induction false} RemoveTables(st: State, i: TopicIdx)
    ensures RemoveTopic(st, i).st.t == Removed(st.t, i).0
  {
    hide Removed;
  }

  /** What a disconnect of a connected client runs through. */
  lemma {:induction false} LeaveSucceedsIff(st: State, pubs: map<PubUID, TopicIdx>, order: seq<PubUID>, idx: ClientIdx)
    requires (forall p | p in order :: p in pubs) && idx in st.p.clientMetatopics
    ensures var r, metas := ReleaseAll(st, pubs, order), st.p.clientMetatopics[idx];
      Leave(st, pubs, order, idx).out.Ok? <==> r.out.Ok? && Removable(r.st.t, metas.0) && Removable(Removed(r.st.t, metas.0).0, metas.1)
  {
    hide ReleaseAll, DropMetatopics, Removed, Removable, SubsUntouched;
    DropSucceedsIff(ReleaseAll(st, pubs, order).st, idx);
  }

  /** A client in the identity table is connected and has a pair of metatopics. */
  lemma {:induction false} KnownClient(states: seq<State>, ops: seq<Op>, j: nat, identity: Identity)
    requires IsRun(states, ops) && j <= |ops| && identity in states[j].c.clientMap
    ensures var st, idx := states[j], states[j].c.clientMap[identity];
      Inv(st) && idx in st.c.clients && idx in st.p.clientMetatopics && IsServicePair(st.p.clientMetatopics[idx], st.tlog.names)
  {
    hide Inv, Init, Step, Enabled, IsServicePair;
    RunInv(states, ops, j);
    RunEquipped(states, ops, j);
    RunServiced(states, ops, j);
    MappedSeated(states[j], identity);
  }

  lemma {:induction false} MappedSeated(st: State, identity: Identity)
    requires Inv(st) && identity in st.c.clientMap
    ensures st.c.clientMap[identity] in st.c.clients && st.c.clientMap[identity] != SERVER_CLIENT_IDX
  {
    hide TopicInv, OwnNames, IndexInv, SubInv, MailInv, Routed, Owned;
  }

  /** In every reachable state, for every known client: the disconnect succeeds exactly if the loop finds at each pubuid a topic it
      can release, and then both metatopics of the client are live, with the names of their own metatopics in use, when they are removed. */
  lemma {:induction false} DisconnectSucceedsIff(states: seq<State>, ops: seq<Op>, j: nat, identity: Identity, order: seq<PubUID>)
    requires IsRun(states, ops) && j <= |ops| && identity in states[j].c.clientMap
    requires Enumerates(order, PubsOf(states[j].c, identity).Keys)
    ensures states[j].c.clientMap[identity] in states[j].p.clientMetatopics
    ensures var st, pubs, st1 := states[j], PubsOf(states[j].c, identity), Unregister(states[j], identity);
      var t, metas := ReleaseAll(st1, pubs, order).st.t, st.p.clientMetatopics[st.c.clientMap[identity]];
      DisconnectStep(st, identity, order).out.Ok? <==>
        Stages(st1, pubs, order) && Removable(t, metas.0) && Removable(Removed(t, metas.0).0, metas.1)
  {
    hide Inv, Init, Step, Enabled, Enumerates, PubsOf, Leave, DisconnectStep, Unregister, ReleaseAll, Removed, Removable, Stages;
    InOrder(order, PubsOf(states[j].c, identity));
    KnownClient(states, ops, j, identity);
    var st, pubs, st1, idx := states[j], PubsOf(states[j].c, identity), Unregister(states[j], identity), states[j].c.clientMap[identity];
    DisconnectShape(st, identity, order);
    UnregisterTables(st, identity);
    StagesIff(st1, pubs, order);
    LeaveSucceedsIff(st1, pubs, order, idx);
  }

  lemma {:induction false} InOrder(order: seq<PubUID>, pubs: map<PubUID, TopicIdx>)
    requires Enumerates(order, pubs.Keys)
    ensures forall p | p in order :: p in pubs
  {}

  // ---- for a client with ordinary topics ----

  lemma {:induction false} ServiceNamesDiffer(a: string, b: string)
    requires IsClientPub(a) && IsClientSub(b)
    ensures a != b && IsService(a) && IsService(b)
  {
    assert a[7] == 'p' && b[7] == 's' && a[..7] == "$client" && b[..7] == "$client";
  }

  /** Removing an ordinary topic leaves service topics as removable as they were. */
  lemma {:induction false} RemovedKeepsService(t: TopicTables, g: TopicLog, n: nat, i: TopicIdx, k: TopicIdx)
    requires TopicInv(t, g, n) && i < |g.names| && k < |g.names| && Ordinary(g.names[i]) && IsService(g.names[k])
    requires Removable(t, i)
    ensures Removable(Removed(t, i).0, k) <==> Removable(t, k)
  {
    hide PubMeta, SubMeta, Cached, HaveLists, IsMeta, IsService;
    var name := t.topics[i].name;
    assert name == g.names[i] && (k in t.topics ==> t.topics[k].name == g.names[k]) by { hide MapNamed; }
    assert g.names[t.topicMap[PubMeta(name)]] == PubMeta(name) && g.names[t.topicMap[SubMeta(name)]] == SubMeta(name) by { hide TopicsNamed; }
    hide TopicInv, Ordinary;
    OrdinaryNotService(name);
    MetaInjective(g.names[k], name);
    MetaInjective(name, g.names[k]);
    MetaNames(name);
    MetaShape(g.names[k]);
    NeverOrdinary(g.names[k], name);
  }

  lemma {:induction false} NeverOrdinary(a: string, name: string)
    requires Ordinary(name)
    ensures PubMeta(a) != name && SubMeta(a) != name
  {
    MetaNames(a);
  }

  lemma {:induction false} LoopKeepsService(st: State, pubs: map<PubUID, TopicIdx>, order: seq<PubUID>, k: TopicIdx)
    requires Inv(st) && PlainPubs(pubs, st.tlog.names) && (forall p | p in order :: p in pubs)
    requires k < |st.tlog.names| && IsService(st.tlog.names[k]) && ReleaseAll(st, pubs, order).out.Ok?
    ensures var r := ReleaseAll(st, pubs, order).st; (Removable(r.t, k) <==> Removable(st.t, k)) && r.tlog.names == st.tlog.names
  {
    hide Inv, Release, Releasable, Removable, Removed, IsService, Ordinary, SubsUntouched, SeatsUntouched;
    if order != [] {
      var front, last := order[..|order| - 1], order[|order| - 1];
      assert last in order && forall p | p in front :: p in order;
      LoopKeepsService(st, pubs, front, k);
      ReleaseAllInv(st, pubs, front);
      var before, i := ReleaseAll(st, pubs, front).st, pubs[last];
      if i in before.p.pubCount {
        ReleaseSucceedsIff(before, i);
        ReleaseTables(before, i);
        if before.p.pubCount[i] == 1 {
          ReleasableLast(before, i);
          TopicPart(before);
          RemovedKeepsService(before.t, before.tlog, before.counters.topicIdx, i, k);
        }
      }
    }
  }

  lemma {:induction false} ReleasableLast(st: State, i: TopicIdx)
    requires i in st.p.pubCount && st.p.pubCount[i] == 1 && Releasable(st, i)
    ensures Removable(st.t, i)
  {}

  lemma {:induction false} TopicPart(st: State)
    requires Inv(st)
    ensures TopicInv(st.t, st.tlog, st.counters.topicIdx)
  {
    hide TopicInv, OwnNames, ClientInv, IndexInv, SubInv, MailInv;
  }

  /** Removing the `$clientpub$` topic leaves the `$clientsub$` topic as removable as it was. */
  lemma {:induction false} RemovedKeepsPartner(t: TopicTables, g: TopicLog, n: nat, metas: (TopicIdx, TopicIdx))
    requires TopicInv(t, g, n) && IsServicePair(metas, g.names) && Removable(t, metas.0)
    ensures Removable(Removed(t, metas.0).0, metas.1) <==> Removable(t, metas.1)
  {
    hide PubMeta, SubMeta, Cached, HaveLists, IsClientPub, IsClientSub;
    var name, other := t.topics[metas.0].name, g.names[metas.1];
    assert name == g.names[metas.0] && (metas.1 in t.topics ==> t.topics[metas.1].name == other) by { hide MapNamed; }
    assert g.names[t.topicMap[PubMeta(name)]] == PubMeta(name) && g.names[t.topicMap[SubMeta(name)]] == SubMeta(name) by { hide TopicsNamed; }
    hide TopicInv;
    ServiceNamesDiffer(name, other);
    MetaInjective(other, name);
    MetaInjective(name, other);
    MetaNames(name);
    MetaShape(name);
    MetaShape(other);
    hide IsService, IsMeta;
  }

  /** In every reachable state, for every known client that publishes ordinary names, told by the tables before the call: the disconnect
      succeeds exactly if no topic is held by more pubuids than it can be released, and both metatopics of the client can be removed. */
  lemma {:induction false} PlainDisconnectSucceedsIff(states: seq<State>, ops: seq<Op>, j: nat, identity: Identity, order: seq<PubUID>)
    requires IsRun(states, ops) && j <= |ops| && identity in states[j].c.clientMap
    requires Enumerates(order, PubsOf(states[j].c, identity).Keys) && PlainPubs(PubsOf(states[j].c, identity), states[j].tlog.names)
    ensures states[j].c.clientMap[identity] in states[j].p.clientMetatopics
    ensures var st, pubs := states[j], PubsOf(states[j].c, identity);
      var metas := st.p.clientMetatopics[st.c.clientMap[identity]];
      DisconnectStep(st, identity, order).out.Ok? <==>
        (forall i | i in st.p.pubCount :: |UidsOf(pubs, i)| <= LimitOf(st, i)) && Removable(st.t, metas.0) && Removable(st.t, metas.1)
  {
    hide Inv, Init, Step, Enabled, Enumerates, PubsOf, Leave, DisconnectStep, Unregister, ReleaseAll, Removed, Removable, PlainPubs, LimitOf, UidsOf, FitsOrder, LimitsLess, IsServicePair;
    var st, pubs, st1, idx := states[j], PubsOf(states[j].c, identity), Unregister(states[j], identity), states[j].c.clientMap[identity];
    InOrder(order, pubs);
    KnownClient(states, ops, j, identity);
    DisconnectShape(st, identity, order);
    UnregisterTables(st, identity);
    UnregisterInv(st, identity);
    FitsByUids(st, st1, pubs, order);
    LoopFinishesIff(st1, pubs, order);
    LeaveSucceedsIff(st1, pubs, order, idx);
    var metas := st.p.clientMetatopics[idx];
    PairIsService(metas, st.tlog.names);
    if ReleaseAll(st1, pubs, order).out.Ok? {
      LoopKeepsService(st1, pubs, order, metas.0);
      LoopKeepsService(st1, pubs, order, metas.1);
      ReleaseAllInv(st1, pubs, order);
      var r := ReleaseAll(st1, pubs, order).st;
      TopicPart(r);
      if Removable(r.t, metas.0) {
        RemovedKeepsPartner(r.t, r.tlog, r.counters.topicIdx, metas);
      }
    }
  }

  lemma {:induction false} PairIsService(metas: (TopicIdx, TopicIdx), names: seq<string>)
    requires IsServicePair(metas, names)
    ensures metas.0 < |names| && metas.1 < |names| && IsService(names[metas.0]) && IsService(names[metas.1])
  {
    ServiceNamesDiffer(names[metas.0], names[metas.1]);
  }

  lemma {:induction false} FitsByUids(st: State, st1: State, pubs: map<PubUID, TopicIdx>, order: seq<PubUID>)
    requires Enumerates(order, pubs.Keys) && st1.t == st.t && st1.p == st.p && st1.overflowChecks == st.overflowChecks
    ensures FitsOrder(st1, pubs, order) <==> forall i | i in st.p.pubCount :: |UidsOf(pubs, i)| <= LimitOf(st, i)
  {
    forall i { CountIsSize(pubs, order, i); }
    hide Count, UidsOf, Limit, Removable;
  }

  // ---- in runs that publish ordinary names ----

  /** The client holds no topic by more pubuids than the topic can be released, as the tables tell. */
  ghost predicate FitsFree(st: State, pubs: map<PubUID, TopicIdx>) {
    forall i | i in st.p.pubCount :: |UidsOf(pubs, i)| <= FreeLimit(st.overflowChecks, i in st.t.topics, st.p.pubCount[i])
  }

  lemma {:induction false} NoUids(pubs: map<PubUID, TopicIdx>, i: TopicIdx, names: seq<string>)
    requires PlainPubs(pubs, names) && !(i < |names| && Ordinary(names[i]))
    ensures |UidsOf(pubs, i)| == 0
  {
    hide Ordinary;
    assert UidsOf(pubs, i) == {};
  }

  lemma {:induction false} FitsInFree(st: State, pubs: map<PubUID, TopicIdx>)
    requires Inv(st) && FreeCore(st) && PlainPubs(pubs, st.tlog.names)
    ensures FitsFree(st, pubs) <==> forall i | i in st.p.pubCount :: |UidsOf(pubs, i)| <= LimitOf(st, i)
  {
    hide FreeCore, PlainPubs, UidsOf, LimitOf, FreeLimit, Ordinary;
    NamedTopics(st);
    hide Inv, TopicsNamed;
    forall i | i in st.p.pubCount
      ensures |UidsOf(pubs, i)| <= LimitOf(st, i) <==> |UidsOf(pubs, i)| <= FreeLimit(st.overflowChecks, i in st.t.topics, st.p.pubCount[i])
    {
      if i < |st.tlog.names| && Ordinary(st.tlog.names[i]) {
        FreeLimits(st, i);
      } else {
        NoUids(pubs, i, st.tlog.names);
      }
    }
  }

  lemma {:induction false} NamedTopics(st: State)
    requires Inv(st)
    ensures TopicsNamed(st.t.topics, st.tlog.names)
  {
    hide OwnNames, ClientInv, IndexInv, SubInv, MailInv, TopicsNamed, MapNamed, HaveLists, Cached, Sized;
  }

  /** The two names of a client's metatopics are in use, each for its own id, and the second metatopic is live. */
  ghost predicate Lingers(st: State, metas: (TopicIdx, TopicIdx)) {
    && IsServicePair(metas, st.tlog.names)
    && Lookup(st.t.topicMap, st.tlog.names[metas.0]) == Some(metas.0)
    && Lookup(st.t.topicMap, st.tlog.names[metas.1]) == Some(metas.1) && metas.1 in st.t.topics
  }

  lemma {:induction false} ClientSubNotPub(name: string)
    requires IsClientSub(name)
    ensures !IsClientPub(name) && IsService(name)
  {
    assert name[7] == 's' && "$clientpub$"[7] == 'p' && name[..7] == "$client";
  }

  lemma {:induction false} LingersIn(st: State, metas: (TopicIdx, TopicIdx))
    requires FreeCore(st) && IsServicePair(metas, st.tlog.names)
    ensures Lingers(st, metas)
  {
    ClientSubNotPub(st.tlog.names[metas.1]);
    ServiceNamesDiffer(st.tlog.names[metas.0], st.tlog.names[metas.1]);
    hide Shaped, InLockstep, Lifetimes, Serviced, Plain, IsClientPub, IsClientSub, IsService;
  }

  /** What a disconnect of this client comes to: an error in any case, the one of its first metatopic if it holds no topic too often. */
  ghost predicate EndsInError(st: State, pubs: map<PubUID, TopicIdx>, idx: ClientIdx, r: Result<()>)
    requires idx in st.p.clientMetatopics
  {
    if FitsFree(st, pubs) then
      && r.out == Err(TopicDoesNotExist)
      && r.st.p.clientMetatopics == st.p.clientMetatopics - {idx} && st.p.clientMetatopics[idx].0 !in r.st.t.topics
    else
      && r.out.Err? && (st.overflowChecks ==> r.out == Err(Overflow))
      && r.st.p.clientMetatopics == st.p.clientMetatopics
  }

  lemma {:induction false} LeaveReports(st: State, pubs: map<PubUID, TopicIdx>, order: seq<PubUID>, idx: ClientIdx)
    requires Inv(st) && FreeCore(st) && PlainPubs(pubs, st.tlog.names) && (forall p | p in order :: p in pubs)
    requires idx in st.p.clientMetatopics && (FitsOrder(st, pubs, order) <==> FitsFree(st, pubs))
    ensures EndsInError(st, pubs, idx, Leave(st, pubs, order, idx))
  {
    hide Inv, FreeCore, ReleaseAll, DropMetatopics, FitsOrder, FitsFree, PlainPubs, LimitsLess, SubsUntouched;
    LoopFinishesIff(st, pubs, order);
    PlainInOrder(pubs, order, st.tlog.names);
    ReleaseAllFree(st, pubs, order);
    ReleaseAllInv(st, pubs, order);
    if st.overflowChecks {
      FreeLoopOverflows(st, pubs, order);
    }
    DropMetatopicsFree(ReleaseAll(st, pubs, order).st, idx);
  }

  lemma {:induction false} PlainInOrder(pubs: map<PubUID, TopicIdx>, order: seq<PubUID>, names: seq<string>)
    requires PlainPubs(pubs, names) && forall p | p in order :: p in pubs
    ensures forall p | p in order :: p in pubs && pubs[p] < |names| && Ordinary(names[pubs[p]])
  {
    hide Ordinary;
  }

  lemma {:induction false} FitsFrame(a: State, b: State, pubs: map<PubUID, TopicIdx>)
    requires b.t == a.t && b.p == a.p && b.overflowChecks == a.overflowChecks
    ensures FitsFree(a, pubs) <==> FitsFree(b, pubs)
  {
    hide UidsOf, FreeLimit;
  }

  lemma {:induction false} PlainClient(st: State, identity: Identity)
    requires FreeCore(st)
    ensures PlainPubs(PubsOf(st.c, identity), st.tlog.names)
  {
    hide FreeCore, Ordinary;
    forall p | p in PubsOf(st.c, identity)
      ensures PubsOf(st.c, identity)[p] < |st.tlog.names| && Ordinary(st.tlog.names[PubsOf(st.c, identity)[p]])
    {
      PubIsPlain(st, st.c.clientMap[identity], p);
    }
  }

  /** A disconnect of a known client never succeeds there. If the client holds no topic too often, the loop comes to its end, and
      removing the first metatopic fails after it took the topic; otherwise the loop stops, and both metatopics are left alone.
      Either way both names stay in use, the second one for a live topic. */
  lemma {:induction false} DisconnectReportsError(states: seq<State>, ops: seq<Op>, j: nat, identity: Identity, order: seq<PubUID>)
    requires IsFreeRun(states, ops) && j <= |ops| && identity in states[j].c.clientMap
    requires Enumerates(order, PubsOf(states[j].c, identity).Keys)
    ensures states[j].c.clientMap[identity] in states[j].p.clientMetatopics
    ensures var st, idx, r := states[j], states[j].c.clientMap[identity], DisconnectStep(states[j], identity, order);
      EndsInError(st, PubsOf(st.c, identity), idx, r) && Lingers(r.st, st.p.clientMetatopics[idx])
  {
    hide Init, Step, Enabled, FreeOp, Inv, FreeCore, Enumerates, PubsOf, Leave, DisconnectStep, Unregister, PlainPubs, LimitOf, UidsOf, FitsOrder, FitsFree, Lingers, IsServicePair, EndsInError;
    var st, pubs, st1, idx := states[j], PubsOf(states[j].c, identity), Unregister(states[j], identity), states[j].c.clientMap[identity];
    InOrder(order, pubs);
    KnownClient(states, ops, j, identity);
    FreeState(states, ops, j);
    DisconnectShape(st, identity, order);
    DisconnectFree(st, identity, order);
    DisconnectLater(st, identity, order);
    UnregisterTables(st, identity);
    UnregisterFree(st, identity);
    PlainClient(st, identity);
    FitsInFree(st, pubs);
    FitsByUids(st, st1, pubs, order);
    FitsFrame(st, st1, pubs);
    LeaveReports(st1, pubs, order, idx);
    EndsFrame(st, st1, pubs, idx, Leave(st1, pubs, order, idx));
    var st' := DisconnectStep(st, identity, order).st;
    NamesGrow(st, st');
    PairLater(st.p.clientMetatopics[idx], st.tlog.names, st'.tlog.names);
    LingersIn(st', st.p.clientMetatopics[idx]);
  }

  lemma {:induction false} EndsFrame(a: State, b: State, pubs: map<PubUID, TopicIdx>, idx: ClientIdx, r: Result<()>)
    requires b.t == a.t && b.p == a.p && b.overflowChecks == a.overflowChecks && idx in a.p.clientMetatopics && EndsInError(b, pubs, idx, r)
    ensures EndsInError(a, pubs, idx, r)
  {
    FitsFrame(a, b, pubs);
    hide FitsFree;
  }

  lemma {:induction false} PairLater(metas: (TopicIdx, TopicIdx), names: seq<string>, names': seq<string>)
    requires IsServicePair(metas, names) && names <= names'
    ensures IsServicePair(metas, names')
  {
    hide IsClientPub, IsClientSub;
  }

  /** And so they stay at every later point of the run, while the first metatopic, once it is gone, never comes back to life. */
  lemma {:induction false} MetatopicsLinger(states: seq<State>, ops: seq<Op>, j: nat, m: nat, k: nat, c: ClientIdx)
    requires IsFreeRun(states, ops) && j <= m <= k <= |ops| && c in states[j].p.clientMetatopics
    ensures var metas := states[j].p.clientMetatopics[c];
      Lingers(states[k], metas) && (metas.0 !in states[m].t.topics ==> metas.0 !in states[k].t.topics)
  {
    hide Init, Step, Enabled, FreeOp, Inv, FreeCore, Serviced, Lingers, IsServicePair, Later;
    var metas := states[j].p.clientMetatopics[c];
    FreeState(states, ops, k);
    RunInv(states, ops, m);
    RunLater(states, ops, j, k);
    RunLater(states, ops, j, m);
    RunServiced(states, ops, j);
    ServicedPair(states[j], c);
    NamesGrow(states[j], states[k]);
    NamesGrow(states[j], states[m]);
    PairLater(metas, states[j].tlog.names, states[k].tlog.names);
    LingersIn(states[k], metas);
    CountersAreSizes(states[m]);
    PairOld(metas, states[j].tlog.names);
    IdsNeverReturn(states, ops, m, k, metas.0);
  }

  lemma {:induction false} ServicedPair(st: State, c: ClientIdx)
    requires ServicedState(st) && c in st.p.clientMetatopics
    ensures IsServicePair(st.p.clientMetatopics[c], st.tlog.names)
  {
    hide IsServicePair;
  }

  lemma {:induction false} PairOld(metas: (TopicIdx, TopicIdx), names: seq<string>)
    requires IsServicePair(metas, names)
    ensures metas.0 < |names|
  {
    hide IsClientPub, IsClientSub;
  }
}
