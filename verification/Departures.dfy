/** Two runs: one whose last disconnect fails half way through its publishers, one whose last disconnect succeeds. */
module Departures {
  import opened Basics
  import opened BiMap
  import opened Protocol
  import opened MetaTopic
  import opened SubValue
  import opened ServerModel
  import opened Invariants
  import opened TopicSteps
  import opened ClientSteps
  import opened Handlers
  import opened Lockstep
  import opened FreeRuns
  import opened Growth
  import opened Leaving
  import opened TopicLives
  import opened OrdinaryTopics
  import opened RoundTrips
  import opened Disconnects

  // ---- one more step ----

  lemma {:induction false} RunOne(states: seq<State>, ops: seq<Op>, op: Op)
    requires IsRun(states, ops) && Enabled(states[|ops|], op)
    ensures IsRun(states + [Step(states[|ops|], op)], ops + [op])
  {
    hide Step, Enabled, Init;
    assert (states + [Step(states[|ops|], op)])[0] == states[0];
  }

  lemma {:induction false} RunNone(checks: bool)
    ensures IsRun([Init(checks)], [])
  {
    hide Init;
  }

  lemma {:induction false} LastInv(states: seq<State>, ops: seq<Op>)
    requires IsRun(states, ops)
    ensures Inv(states[|ops|])
  {
    hide Inv, Init, Step, Enabled;
    RunInv(states, ops, |ops|);
  }

  // ---- arriving ----

  lemma {:induction false} LeafGrows(st: State, topic: Topic)
    requires Inv(st) && '$' in topic.name
    ensures var r := AddTopic(st, topic);
      && r.out.Ok? && r.st.c == st.c && r.st.p.clientMetatopics == st.p.clientMetatopics
      && Submap(st.t.topics, r.st.t.topics) && Submap(st.t.topicMap, r.st.t.topicMap)
      && Lookup(r.st.t.topicMap, topic.name) == Some(r.out.value)
      && r.st.t.topicMap.Keys == st.t.topicMap.Keys + {topic.name}
      && (topic.name !in st.t.topicMap ==> r.out.value in r.st.t.topics && r.st.t.topics[r.out.value] == topic)
  {
    BelowNew(st);
    hide Inv, SubsUntouched, SeatsUntouched;
  }

  /** A known client was admitted under this index and has published nothing. */
  ghost predicate Arrived(st: State, identity: Identity, c: ClientIdx) {
    && Lookup(st.c.clientMap, identity) == Some(c) && c in st.c.clients && st.c.clients[c].pubs.fwd == map[]
    && c in st.p.clientMetatopics
  }

  lemma {:induction false} RegisterTables(st: State, identity: Identity)
    ensures var r := Register(st, identity);
      && r.t == st.t && r.p.clientMetatopics == st.p.clientMetatopics && r.tlog == st.tlog
      && r.c.clientMap == st.c.clientMap[identity := st.counters.clientIdx]
      && r.c.clients == st.c.clients[st.counters.clientIdx := NewClient(identity)]
      && r.counters.clientIdx == st.counters.clientIdx + 1
  {}

  lemma {:induction false} ClientsBelow(st: State)
    requires Inv(st)
    ensures st.counters.clientIdx !in st.c.clients
  {
    hide TopicInv, OwnNames, IndexInv, SubInv, MailInv, Routed, Owned;
  }

  /** Names and live topics are only added to, and this client is where it was, with the same pair of metatopics. */
  ghost predicate Stays(a: State, b: State, identity: Identity, c: ClientIdx) {
    && Submap(a.t.topics, b.t.topics) && Submap(a.t.topicMap, b.t.topicMap)
    && Arrived(b, identity, c) && Lookup(b.p.clientMetatopics, c) == Lookup(a.p.clientMetatopics, c)
  }

  lemma {:induction false} StaysTrans(a: State, b: State, d: State, identity: Identity, c: ClientIdx)
    requires Stays(a, b, identity, c) && Stays(b, d, identity, c)
    ensures Stays(a, d, identity, c)
  {
    hide Arrived;
  }

  /** The first metatopics of a name are live. */
  ghost predicate FreshPair(st: State, name: string, c: ClientIdx) {
    && c in st.p.clientMetatopics
    && var metas := st.p.clientMetatopics[c];
    && metas.0 in st.t.topics && st.t.topics[metas.0].name == ClientPub(name)
    && metas.1 in st.t.topics && st.t.topics[metas.1].name == ClientSub(name)
  }

  lemma {:induction false} PairNamesDiffer(name: string)
    ensures ClientPub(name) != ClientSub(name)
  {
    assert ClientPub(name)[7] == 'p' && ClientSub(name)[7] == 's';
  }

  lemma {:induction false} ConnectShape(st: State, identity: Identity)
    requires Inv(st) && identity !in st.c.clientMap
    ensures var name := RenamedIdentity(st.c.clients, identity).name;
      var st1 := Register(st, RenamedIdentity(st.c.clients, identity));
      var p := AddTopic(st1, NewMeta(ClientPub(name)));
      var s := AddTopic(p.st, NewMeta(ClientSub(name)));
      && Inv(st1) && Inv(p.st) && '$' in ClientPub(name) && '$' in ClientSub(name) && p.out.Ok? && s.out.Ok?
      && ConnectStep(st, identity) ==
           Result(s.st.(p := s.st.p.(clientMetatopics := s.st.p.clientMetatopics[st.counters.clientIdx := (p.out.value, s.out.value)])),
                  Ok((RenamedIdentity(st.c.clients, identity), st.counters.clientIdx)))
  {
    hide Inv, RenamedIdentity, AddTopic, ClientPub, ClientSub, Register, SubsUntouched, SeatsUntouched;
    var renamed := RenamedIdentity(st.c.clients, identity);
    var st1 := Register(st, renamed);
    RegisterInv(st, renamed);
    ClientNames(renamed.name);
    AddTopicLeaf(st1, NewMeta(ClientPub(renamed.name)));
    var p := AddTopic(st1, NewMeta(ClientPub(renamed.name)));
    AddTopicLeaf(p.st, NewMeta(ClientSub(renamed.name)));
  }

  lemma {:induction false} ConnectArrives(st: State, identity: Identity)
    requires Inv(st) && identity !in st.c.clientMap
    ensures var r := ConnectStep(st, identity);
      && r.out.Ok? && r.out.value.1 == st.counters.clientIdx && r.out.value.0.addr == identity.addr
      && Arrived(r.st, r.out.value.0, st.counters.clientIdx)
      && r.st.c.clientMap == st.c.clientMap[r.out.value.0 := st.counters.clientIdx]
      && r.st.t.topicMap.Keys == st.t.topicMap.Keys + {ClientPub(r.out.value.0.name), ClientSub(r.out.value.0.name)}
      && (ClientPub(r.out.value.0.name) !in st.t.topicMap && ClientSub(r.out.value.0.name) !in st.t.topicMap ==>
            FreshPair(r.st, r.out.value.0.name, st.counters.clientIdx))
  {
    hide Inv, AddTopic, ClientPub, ClientSub, Register, ConnectStep, SubsUntouched, SeatsUntouched;
    ConnectShape(st, identity);
    var renamed := RenamedIdentity(st.c.clients, identity);
    hide RenamedIdentity;
    var st1 := Register(st, renamed);
    RegisterTables(st, renamed);
    LeafGrows(st1, NewMeta(ClientPub(renamed.name)));
    var p := AddTopic(st1, NewMeta(ClientPub(renamed.name)));
    LeafGrows(p.st, NewMeta(ClientSub(renamed.name)));
    PairNamesDiffer(renamed.name);
  }

  lemma {:induction false} ConnectStays(st: State, newcomer: Identity, identity: Identity, c: ClientIdx)
    requires Inv(st) && newcomer !in st.c.clientMap && newcomer.addr != identity.addr && Arrived(st, identity, c)
    ensures Stays(st, ConnectStep(st, newcomer).st, identity, c)
  {
    hide Inv, AddTopic, ClientPub, ClientSub, Register, ConnectStep, SubsUntouched, SeatsUntouched;
    ConnectShape(st, newcomer);
    ClientsBelow(st);
    var renamed := RenamedIdentity(st.c.clients, newcomer);
    assert renamed.addr == newcomer.addr;
    hide RenamedIdentity;
    var st1 := Register(st, renamed);
    RegisterTables(st, renamed);
    LeafGrows(st1, NewMeta(ClientPub(renamed.name)));
    var p := AddTopic(st1, NewMeta(ClientPub(renamed.name)));
    LeafGrows(p.st, NewMeta(ClientSub(renamed.name)));
  }

  // ---- publishing a reserved name ----

  lemma {:induction false} BindOthers(st: State, d: ClientIdx, pubuid: PubUID, i: TopicIdx, name: string)
    requires d in st.c.clients
    ensures var r := BindPub(st, d, pubuid, i, name);
      && r.t == st.t && r.p == st.p && r.c.clientMap == st.c.clientMap
      && forall k | k in st.c.clients && k != d :: k in r.c.clients && r.c.clients[k] == st.c.clients[k]
  {}

  lemma {:induction false} UpdateOthers(st: State, d: ClientIdx, entry: ClientPublisherMTE)
    ensures var r := UpdatePublishers(st, d, entry, true).st;
      r.t == st.t && r.c == st.c && r.p.clientMetatopics == st.p.clientMetatopics
  {}

  lemma {:induction false} SameStays(a: State, b: State, identity: Identity, c: ClientIdx, d: ClientIdx)
    requires Arrived(a, identity, c) && d != c
    requires Submap(a.t.topics, b.t.topics) && Submap(a.t.topicMap, b.t.topicMap)
    requires b.c.clientMap == a.c.clientMap && b.p.clientMetatopics == a.p.clientMetatopics
    requires forall k | k in a.c.clients && k != d :: k in b.c.clients && b.c.clients[k].pubs == a.c.clients[k].pubs
    ensures Stays(a, b, identity, c)
  {}

  /** Any client may publish a name with a `$`, and nothing but the new topic and that client's publishers comes of it. */
  lemma {:induction false} PublishStays(st: State, p: PublishTopic, d: ClientIdx, identity: Identity, c: ClientIdx)
    requires Inv(st) && '$' in p.name && Arrived(st, identity, c) && d != c
    ensures Stays(st, PublishStep(st, p, d).st, identity, c) && p.name in PublishStep(st, p, d).st.t.topicMap
  {
    hide Inv, AddTopic, AnnounceTopic, BindPub, UpdatePublishers, Arrived, SubsUntouched, SeatsUntouched;
    LeafGrows(st, FromPublishTopic(p));
    var a := AddTopic(st, FromPublishTopic(p));
    AnnounceFrame(a.st, a.out.value, Some((p.pubuid, d)));
    var b := AnnounceTopic(a.st, a.out.value, Some((p.pubuid, d)));
    if b.out.Ok? && d in b.st.c.clients {
      BindOthers(b.st, d, p.pubuid, a.out.value, p.name);
      UpdateOthers(BindPub(b.st, d, p.pubuid, a.out.value, p.name), d, ClientPublisherMTE(p.name, p.pubuid));
    }
    SameStays(st, PublishStep(st, p, d).st, identity, c, d);
  }

  // ---- a disconnect that succeeds ----

  /** Client `d` publishes these, one after the other. */
  lemma {:induction false} PublishEach(states: seq<State>, ops: seq<Op>, ps: seq<PublishTopic>, d: ClientIdx, identity: Identity, c: ClientIdx)
    returns (states': seq<State>, ops': seq<Op>)
    requires IsRun(states, ops) && Arrived(states[|ops|], identity, c) && d != c
    requires forall p | p in ps :: '$' in p.name
    ensures IsRun(states', ops') && states <= states' && ops <= ops' && Stays(states[|ops|], states'[|ops'|], identity, c)
    ensures forall p | p in ps :: p.name in states'[|ops'|].t.topicMap
  {
    hide Inv, Init, Step, Enabled, PublishStep, Arrived;
    if ps == [] {
      states', ops' := states, ops;
    } else {
      var front, last := ps[..|ps| - 1], ps[|ps| - 1];
      assert last in ps;
      var states1, ops1 := PublishEach(states, ops, front, d, identity, c);
      LastInv(states1, ops1);
      var st, op := states1[|ops1|], OpPublish(last, d);
      PublishStays(st, last, d, identity, c);
      StepIsPublish(st, last, d);
      RunOne(states1, ops1, op);
      states', ops' := states1 + [Step(st, op)], ops1 + [op];
      StaysTrans(states[|ops|], st, Step(st, op), identity, c);
    }
  }

  lemma {:induction false} StepIsPublish(st: State, p: PublishTopic, d: ClientIdx)
    ensures Enabled(st, OpPublish(p, d)) && Step(st, OpPublish(p, d)) == PublishStep(st, p, d).st
  {
    hide PublishStep;
  }

  lemma {:induction false} StepIsConnect(st: State, identity: Identity)
    ensures Enabled(st, OpConnect(identity)) && Step(st, OpConnect(identity)) == ConnectStep(st, identity).st
  {
    hide ConnectStep;
  }

  /** The four names that let both metatopics of a client be removed. */
  function Props(name: string): seq<PublishTopic> {
    [PublishTopic(PubMeta(ClientPub(name)), 1, "int", None), PublishTopic(SubMeta(ClientPub(name)), 2, "int", None),
     PublishTopic(PubMeta(ClientSub(name)), 3, "int", None), PublishTopic(SubMeta(ClientSub(name)), 4, "int", None)]
  }

  lemma {:induction false} PropsHaveDollars(name: string)
    ensures forall p | p in Props(name) :: '$' in p.name
  {
    MetaNames(ClientPub(name));
    MetaNames(ClientSub(name));
    hide PubMeta, SubMeta, ClientPub, ClientSub;
  }

  lemma {:induction false} Propped(a: State, b: State, identity: Identity, c: ClientIdx)
    requires FreshPair(a, identity.name, c) && Stays(a, b, identity, c) && forall p | p in Props(identity.name) :: p.name in b.t.topicMap
    ensures c in b.p.clientMetatopics
    ensures Removable(b.t, b.p.clientMetatopics[c].0) && Removable(b.t, b.p.clientMetatopics[c].1)
  {
    hide PubMeta, SubMeta, ClientPub, ClientSub;
    var ps := Props(identity.name);
    assert ps[0] in ps && ps[1] in ps && ps[2] in ps && ps[3] in ps;
  }

  lemma {:induction false} NoPubs(st: State, identity: Identity, c: ClientIdx)
    requires Arrived(st, identity, c)
    ensures identity in st.c.clientMap && PubsOf(st.c, identity) == map[] && st.c.clientMap[identity] == c
    ensures Enumerates([], PubsOf(st.c, identity).Keys) && PlainPubs(PubsOf(st.c, identity), st.tlog.names)
    ensures forall i | i in st.p.pubCount :: |UidsOf(PubsOf(st.c, identity), i)| <= LimitOf(st, i)
  {
    hide Limit, Ordinary;
    forall i ensures |UidsOf(map[], i)| == 0 {
      assert UidsOf(map[], i) == {};
    }
  }

  /** From any point of any run: if a client has published nothing and its metatopics are live, another client can publish
      four names after which the first client's disconnect succeeds. */
  lemma {:induction false} ProppedLeaves(states: seq<State>, ops: seq<Op>, identity: Identity, c: ClientIdx, d: ClientIdx)
    returns (states': seq<State>, ops': seq<Op>)
    requires IsRun(states, ops) && Arrived(states[|ops|], identity, c) && FreshPair(states[|ops|], identity.name, c) && d != c
    ensures IsRun(states', ops') && states <= states' && ops <= ops' && PubsOf(states'[|ops'|].c, identity) == map[] && identity in states'[|ops'|].c.clientMap
    ensures DisconnectStep(states'[|ops'|], identity, []).out.Ok?
  {
    hide Inv, Init, Step, Enabled, Arrived, FreshPair, Stays, Enumerates, PubsOf, DisconnectStep, PlainPubs, LimitOf, UidsOf, Removable;
    PropsHaveDollars(identity.name);
    states', ops' := PublishEach(states, ops, Props(identity.name), d, identity, c);
    var st := states'[|ops'|];
    Propped(states[|ops|], st, identity, c);
    StaysArrived(states[|ops|], st, identity, c);
    NoPubs(st, identity, c);
    PlainDisconnectSucceedsIff(states', ops', |ops'|, identity, []);
  }

  lemma {:induction false} StaysArrived(a: State, b: State, identity: Identity, c: ClientIdx)
    requires Stays(a, b, identity, c)
    ensures Arrived(b, identity, c) && Submap(a.t.topics, b.t.topics) && Lookup(b.p.clientMetatopics, c) == Lookup(a.p.clientMetatopics, c)
  {
    hide Arrived;
  }

  lemma {:induction false} InitTables(checks: bool)
    ensures var st := Init(checks);
      && st.counters.clientIdx == 1 && st.c.clientMap == map[] && st.overflowChecks == checks
      && st.t.topicMap.Keys == {"$clients", "$serversub", "$serverpub"}
  {
    hide SubsUntouched, SeatsUntouched;
  }

  lemma {:induction false} PairNotInit(name: string, checks: bool)
    ensures ClientPub(name) !in Init(checks).t.topicMap && ClientSub(name) !in Init(checks).t.topicMap
  {
    InitTables(checks);
    hide Init;
    assert ClientSub(name)[1] == 'c' && ClientPub(name)[1] == 'c';
    assert "$clients"[1] == 'c' && "$serversub"[1] == 's' && "$serverpub"[1] == 's';
    assert |ClientPub(name)| >= 11 && |ClientSub(name)| >= 11 && |"$clients"| == 8;
  }

  lemma {:induction false} StaysFresh(a: State, b: State, name: string, c: ClientIdx)
    requires FreshPair(a, name, c) && Submap(a.t.topics, b.t.topics) && Lookup(b.p.clientMetatopics, c) == Lookup(a.p.clientMetatopics, c)
    ensures FreshPair(b, name, c)
  {
    hide ClientPub, ClientSub;
  }

  /** A client that just arrived at a new server. */
  lemma {:induction false} OneArrives(checks: bool, first: Identity) returns (states: seq<State>, ops: seq<Op>, identity: Identity)
    ensures IsRun(states, ops) && ops == [OpConnect(first)] && states[0] == Init(checks)
    ensures Arrived(states[1], identity, 1) && FreshPair(states[1], identity.name, 1)
    ensures identity.addr == first.addr && states[1].c.clientMap.Keys == {identity} && states[1].overflowChecks == checks
    ensures forall n | n in states[1].t.topicMap :: '$' in n
  {
    hide Init, Step, Enabled, Inv, ConnectStep, Arrived, FreshPair;
    var st := Init(checks);
    RunNone(checks);
    InitTables(checks);
    LastInv([st], []);
    ConnectArrives(st, first);
    StepIsConnect(st, first);
    RunOne([st], [], OpConnect(first));
    var r := ConnectStep(st, first);
    identity := r.out.value.0;
    PairNotInit(identity.name, checks);
    ReservedNames(identity.name);
    hide ClientPub, ClientSub;
    states, ops := [st] + [r.st], [] + [OpConnect(first)];
  }

  lemma {:induction false} ReservedNames(name: string)
    ensures '$' in ClientPub(name) && '$' in ClientSub(name) && '$' in "$clients" && '$' in "$serversub" && '$' in "$serverpub"
  {
    assert ClientPub(name)[0] == '$' && ClientSub(name)[0] == '$' && "$clients"[0] == '$' && "$serversub"[0] == '$' && "$serverpub"[0] == '$';
  }

  /** And another that arrived after it. */
  lemma {:induction false} TwoArrive(checks: bool, first: Identity, second: Identity) returns (states: seq<State>, ops: seq<Op>, identity: Identity)
    requires first.addr != second.addr
    ensures IsRun(states, ops) && |ops| == 2 && Arrived(states[2], identity, 1) && FreshPair(states[2], identity.name, 1)
    ensures states[0] == Init(checks)
  {
    hide Init, Step, Enabled, Inv, ConnectStep, Arrived, FreshPair, Stays;
    states, ops, identity := OneArrives(checks, first);
    var st := states[1];
    LastInv(states, ops);
    StepIsConnect(st, second);
    RunOne(states, ops, OpConnect(second));
    assert second !in st.c.clientMap;
    ConnectStays(st, second, identity, 1);
    var q := ConnectStep(st, second).st;
    StaysArrived(st, q, identity, 1);
    StaysFresh(st, q, identity.name, 1);
    states, ops := states + [q], ops + [OpConnect(second)];
  }

  /** Such a run exists: two clients arrive, the second publishes four names, the first leaves, with success. */
  lemma {:induction false} LeavingCanSucceed(checks: bool) returns (states: seq<State>, ops: seq<Op>, identity: Identity)
    ensures IsRun(states, ops) && states[0] == Init(checks) && identity in states[|ops|].c.clientMap
    ensures PubsOf(states[|ops|].c, identity) == map[] && DisconnectStep(states[|ops|], identity, []).out.Ok?
  {
    hide Init, Step, Enabled, Arrived, FreshPair, PubsOf, DisconnectStep;
    states, ops, identity := TwoArrive(checks, Identity("10.0.0.1:1", "a"), Identity("10.0.0.2:1", "b"));
    states, ops := ProppedLeaves(states, ops, identity, 1, 2);
  }

  // ---- a disconnect that stops half way ----

  lemma {:induction false} PublishKeepsMap(st: State, p: PublishTopic, c: ClientIdx)
    requires Inv(st) && FreeCore(st) && Ordinary(p.name) && c in st.c.clients
    ensures PublishStep(st, p, c).st.c.clientMap == st.c.clientMap
  {
    hide Inv, FreeCore, AddTopic, AnnounceTopic, BindPub, UpdatePublishers, Ordinary, SubsUntouched, SeatsUntouched;
    AddOrdinaryFree(st, FromPublishTopic(p));
    var a := AddTopic(st, FromPublishTopic(p));
    AnnounceFrame(a.st, a.out.value, Some((p.pubuid, c)));
    var b := AnnounceTopic(a.st, a.out.value, Some((p.pubuid, c)));
    BindOthers(b.st, c, p.pubuid, a.out.value, p.name);
    UpdateOthers(BindPub(b.st, c, p.pubuid, a.out.value, p.name), c, ClientPublisherMTE(p.name, p.pubuid));
  }

  /** The client's only pubuids are two for one topic, which counts one publisher. */
  ghost predicate HeldTwice(st: State, identity: Identity, c: ClientIdx, i: TopicIdx, p: PubUID, q: PubUID) {
    && Lookup(st.c.clientMap, identity) == Some(c) && c in st.c.clients && st.c.clients[c].pubs.fwd == map[p := i, q := i]
    && i in st.p.pubCount && st.p.pubCount[i] == 1 && i in st.t.topics
  }

  lemma {:induction false} PublishTwice(st: State, identity: Identity, c: ClientIdx, p: PublishTopic, q: PublishTopic)
    requires Inv(st) && FreeInv(st) && Arrived(st, identity, c) && p.name !in st.t.topicMap && !FromPublishTopic(p).HasImplicitPublisher()
    requires Ordinary(p.name) && q.name == p.name
    ensures var m := PublishStep(st, p, c).st;
      c in m.c.clients && HeldTwice(PublishStep(m, q, c).st, identity, c, st.counters.topicIdx, p.pubuid, q.pubuid)
  {
    hide Inv, FreeCore, Ordinary, PublishStep, ThreeMore, PublisherList, Topic.HasImplicitPublisher, SubsUntouched, SeatsUntouched;
    PublishNewTopic(st, p, c);
    PublishInv(st, p, c);
    PublishFree(st, p, c);
    PublishKeepsMap(st, p, c);
    var m := PublishStep(st, p, c).st;
    NewTopicIdx(st, m, FromPublishTopic(p));
    NewTopicLive(st, m, FromPublishTopic(p));
    PublishTables(m, q, c);
    PublishKeepsMap(m, q, c);
  }

  lemma {:induction false} NewTopicLive(st: State, st': State, topic: Topic)
    requires ThreeMore(st, st', topic)
    ensures st.counters.topicIdx in st'.t.topics
  {}

  lemma {:induction false} TwiceTooOften(st: State, identity: Identity, c: ClientIdx, i: TopicIdx, p: PubUID, q: PubUID)
    requires HeldTwice(st, identity, c, i, p, q) && p != q && st.overflowChecks
    ensures identity in st.c.clientMap && st.c.clientMap[identity] == c && Enumerates([p, q], PubsOf(st.c, identity).Keys) && !FitsFree(st, PubsOf(st.c, identity))
  {
    assert UidsOf(PubsOf(st.c, identity), i) == {p, q};
    assert |UidsOf(PubsOf(st.c, identity), i)| == 2;
    assert PubsOf(st.c, identity).Keys == {p, q};
  }

  /** It publishes one name under two pubuids, and its disconnect meets a zero count. */
  lemma {:induction false} LeavingCanOverflow() returns (states: seq<State>, ops: seq<Op>, identity: Identity)
    ensures IsFreeRun(states, ops) && states[0] == Init(true) && identity in states[|ops|].c.clientMap
    ensures Enumerates([1, 2], PubsOf(states[|ops|].c, identity).Keys) && DisconnectStep(states[|ops|], identity, [1, 2]).out == Err(Overflow)
  {
    hide Init, Step, Enabled, Inv, FreeCore, Arrived, FreshPair, PubsOf, DisconnectStep, PublishStep, HeldTwice, Enumerates, FitsFree, Lingers, SubsUntouched, SeatsUntouched, Ordinary;
    states, ops, identity := OneArrives(true, Identity("10.0.0.1:1", "a"));
    OneConnectFree(states, ops);
    FreeState(states, ops, 1);
    var p, q := PublishTopic("t", 1, "int", None), PublishTopic("t", 2, "int", None);
    var st := states[1];
    PlainName();
    PublishTwice(st, identity, 1, p, q);
    StepIsPublish(st, p, 1);
    RunOne(states, ops, OpPublish(p, 1));
    PublishChecks(st, p, 1);
    var m := PublishStep(st, p, 1).st;
    StepIsPublish(m, q, 1);
    RunOne(states + [m], ops + [OpPublish(p, 1)], OpPublish(q, 1));
    PublishChecks(m, q, 1);
    var n := PublishStep(m, q, 1).st;
    states, ops := states + [m] + [n], ops + [OpPublish(p, 1)] + [OpPublish(q, 1)];
    TwiceTooOften(n, identity, 1, st.counters.topicIdx, 1, 2);
    DisconnectReportsError(states, ops, 3, identity, [1, 2]);
  }

  lemma {:induction false} OneConnectFree(states: seq<State>, ops: seq<Op>)
    requires IsRun(states, ops) && |ops| == 1 && ops[0].OpConnect?
    ensures IsFreeRun(states, ops)
  {
    hide IsRun;
  }

  lemma {:induction false} PlainName()
    ensures Ordinary("t") && !FromPublishTopic(PublishTopic("t", 1, "int", None)).HasImplicitPublisher()
  {}

  lemma {:induction false} PublishChecks(st: State, p: PublishTopic, c: ClientIdx)
    ensures PublishStep(st, p, c).st.overflowChecks == st.overflowChecks
  {
    hide PublishStep;
  }
}
