/** Subscriptions over whole runs: where they come from, who owns them, which topics list them, and that they leave for good. */
module Registry {
  import opened Basics
  import opened BiMap
  import opened Protocol
  import opened MetaTopic
  import opened SubValue
  import opened ServerModel
  import opened Invariants
  import opened Subscribing
  import opened Handlers
  import opened Growth
  import opened History
  import opened Delivery
  import Mailing
  import ValueSteps

  // ---- where subscriptions come from ----

  lemma {:induction false} SubscribeEnters(st: State, sub: Subscription, c: ClientIdx, order: seq<string>, now: nat)
    requires Inv(st) && Enumerates(order, st.t.topicMap.Keys)
    ensures SubscribeStep(st, sub, c, order, now).st.s.subscriptions ==
      if c in st.c.clients then st.s.subscriptions[st.counters.subIdx := (sub, c)] else st.s.subscriptions
  {
    if c in st.c.clients {
      SubscribeShape(st, sub, c, order, now);
      SubscribeVisits(st, sub, order);
      hide Inv, SubscribeStep, VisitAll, Matches, Ids, Welcomed, NewStore, BirthOf, AnnouncesFound, SendsCached, Finds;
    }
  }

  /** Only a subscribe brings a subscription in, and under the next id. */
  lemma {:induction false} StepEnters(st: State, op: Op, s: SubIdx)
    requires Inv(st) && Enabled(st, op) && s in Step(st, op).s.subscriptions && s !in st.s.subscriptions
    ensures op.OpSubscribe? && op.client in st.c.clients && s == st.counters.subIdx
  {
    hide Inv, SubsUntouched, SeatsUntouched, ConnectStep, DisconnectStep, PublishStep, UnpublishStep, SubscribeStep, UnsubscribeStep, SetPropertiesStep, SetValueStep, SendOutStep;
    match op
    case OpConnect(_) => SameSubscriptions(st, Step(st, op));
    case OpDisconnect(_, _) => SameSubscriptions(st, Step(st, op));
    case OpPublish(_, _) => SameSubscriptions(st, Step(st, op));
    case OpUnpublish(_, _) => SameSubscriptions(st, Step(st, op));
    case OpSubscribe(sub, c, order, now) => SubscribeEnters(st, sub, c, order, now);
    case OpUnsubscribe(subuid, c) => UnsubscribeLeaves(st, subuid, c);
    case OpSetProperties(name, update) => SetPropertiesLog(st, name, update);
    case OpSetValue(value, k) => SetValueSubscriptions(st, value, k);
    case OpClientValue(c, pubuid, value) =>
      if c in st.c.clients && pubuid in st.c.clients[c].pubs.fwd {
        SetValueSubscriptions(st, value, st.c.clients[c].pubs.fwd[pubuid]);
      }
    case OpSendOut(picks, now) =>
  }

  lemma {:induction false} SameSubscriptions(a: State, b: State)
    requires SubsUntouched(a, b)
    ensures b.s.subscriptions == a.s.subscriptions
  {}

  lemma {:induction false} UnsubscribeLeaves(st: State, subuid: i32, c: ClientIdx)
    ensures UnsubscribeStep(st, subuid, c).st.s.subscriptions.Keys <= st.s.subscriptions.Keys
  {
    hide WithoutSub;
  }

  lemma {:induction false} SetValueSubscriptions(st: State, v: TimestampedValue, i: TopicIdx)
    ensures SetValueStep(st, v, i).st.s.subscriptions == st.s.subscriptions
  {
    hide Queued, Append, Replace;
  }

  /** Operation `k` is the one that made subscription `s`. */
  predicate MadeBy(states: seq<State>, ops: seq<Op>, s: SubIdx, k: nat) {
    Subscribes(states, ops, k) && states[k].counters.subIdx == s
  }

  /** Every subscription was made by an earlier operation of the run. */
  lemma {:induction false} Origin(states: seq<State>, ops: seq<Op>, j: nat, s: SubIdx)
    requires IsRun(states, ops) && j <= |ops| && s in states[j].s.subscriptions
    ensures exists k: nat :: k < j && MadeBy(states, ops, s, k)
  {
    hide Inv, Init, Step, Enabled;
    if j == 0 {
      StartEmpty(states, ops);
    } else {
      RunInv(states, ops, j - 1);
      if s in states[j - 1].s.subscriptions {
        Origin(states, ops, j - 1, s);
      } else {
        StepEnters(states[j - 1], ops[j - 1], s);
        assert MadeBy(states, ops, s, j - 1);
      }
    }
  }

  lemma {:induction false} InitEmpty(checks: bool)
    ensures Init(checks).s.subscriptions == map[] && Init(checks).log.lastPublished == map[] && Init(checks).c.clients.Keys == {SERVER_CLIENT_IDX}
  {
    hide Alloc;
    var st := Blank(checks);
    assert SubsUntouched(st, Alloc(st, NewMeta("$clients")));
    SameSubscriptions(st, Init(checks));
  }

  lemma {:induction false} StartEmpty(states: seq<State>, ops: seq<Op>)
    requires IsRun(states, ops)
    ensures states[0].s.subscriptions == map[] && states[0].log.lastPublished == map[] && states[0].c.clients.Keys == {SERVER_CLIENT_IDX}
  {
    var checks :| states[0] == Init(checks);
    hide *;
    InitEmpty(checks);
  }

  // ---- the index ----

  /** The subscriber list of every name in use holds exactly the subscriptions that match it and are younger than its id. */
  lemma {:induction false} ExactIndex(states: seq<State>, ops: seq<Op>, j: nat, name: string, s: SubIdx, k: nat)
    requires IsRun(states, ops) && k < j <= |ops| && name in states[j].t.topicMap && MadeBy(states, ops, s, k)
    ensures var i := states[j].t.topicMap[name];
      Listed(states[j].t, s, i) <==> s in states[j].s.subscriptions && ops[k].sub.CaresAbout(name) && i < states[k].counters.topicIdx
  {
    RunInv(states, ops, j);
    RunInv(states, ops, k);
    BirthFacts(states, ops, k);
    BirthsStay(states, ops, s, k + 1, j);
    assert |states[k].tlog.accepted| == states[k].counters.topicIdx;
    if s in states[j].s.subscriptions {
      SameSubscription(states, ops, s, k + 1, j);
    }
    hide IsRun, Inv, Subscribes, DrainedOf;
    IndexAt(states[j], name, s);
  }

  /** Lists hold present subscriptions only. */
  lemma {:induction false} IndexAt(st: State, name: string, s: SubIdx)
    requires Inv(st) && name in st.t.topicMap && s in st.log.births
    ensures Listed(st.t, s, st.t.topicMap[name]) <==>
      s in st.s.subscriptions && st.s.subscriptions[s].0.CaresAbout(name) && st.t.topicMap[name] < |st.log.births[s].seen|
  {
    NamedHasList(st, name);
    assert ListExact(st.t.topicSubs[st.t.topicMap[name]], st.t.topicMap[name], st.s.subscriptions.Keys, st.log.births);
    hide TopicInv, ClientInv, SubInv, MailInv, ListedMatch, BirthsOk, ListsExact;
  }

  lemma {:induction false} NamedHasList(st: State, name: string)
    requires Inv(st) && name in st.t.topicMap
    ensures st.t.topicMap[name] in st.t.topicSubs
  {
    hide Cached, MapNamed, TopicsNamed, ClientInv, IndexInv, SubInv, MailInv;
  }

  /** A list never holds a subscription that is not there. */
  lemma {:induction false} ListsArePresent(states: seq<State>, ops: seq<Op>, j: nat, i: TopicIdx)
    requires IsRun(states, ops) && j <= |ops| && i in states[j].t.topicSubs
    ensures Ascending(states[j].t.topicSubs[i])
    ensures forall s | s in states[j].t.topicSubs[i] :: s in states[j].s.subscriptions && s in states[j].s.subValues
  {
    RunInv(states, ops, j);
    hide IsRun, TopicInv, ClientInv, MailInv, Delivered;
    assert ListExact(states[j].t.topicSubs[i], i, states[j].s.subscriptions.Keys, states[j].log.births);
  }

  // ---- agreement of the tables ----

  /** How the tables of the server agree. */
  ghost predicate Agreement(st: State) {
    && (forall a, b | a in st.t.topicMap && b in st.t.topicMap && st.t.topicMap[a] == st.t.topicMap[b] :: a == b)
    && (forall a, i | a in st.t.topicMap && i in st.t.topics && st.t.topicMap[a] == i :: st.t.topics[i].name == a)
    && (forall i | i in st.t.topics :: i in st.t.topicSubs)
    && (forall a | a in st.t.topicMap :: st.t.topicMap[a] in st.t.topicSubs)
    && (forall i | i in st.t.topicSubs :: Ascending(st.t.topicSubs[i]) && forall s | s in st.t.topicSubs[i] :: s in st.s.subscriptions)
    && st.s.subscriptions.Keys == st.s.subValues.Keys == st.s.sendTimes.Keys
    && (forall i | i in st.t.topicSubs :: i < st.counters.topicIdx)
    && (forall s | s in st.s.subscriptions :: s < st.counters.subIdx)
    && (forall c | c in st.c.clients :: c < st.counters.clientIdx)
  }

  lemma {:induction false} TopicsAgree(st: State)
    requires Inv(st)
    ensures forall a, b | a in st.t.topicMap && b in st.t.topicMap && st.t.topicMap[a] == st.t.topicMap[b] :: a == b
    ensures forall a, i | a in st.t.topicMap && i in st.t.topics && st.t.topicMap[a] == i :: st.t.topics[i].name == a
    ensures HaveLists(st.t.topics, st.t.topicMap, st.t.topicValues, st.t.topicSubs, st.counters.topicIdx)
  {
    hide ClientInv, IndexInv, SubInv, MailInv, Cached, HaveLists;
    forall a, b | a in st.t.topicMap && b in st.t.topicMap && st.t.topicMap[a] == st.t.topicMap[b] ensures a == b {
      assert st.tlog.names[st.t.topicMap[a]] == a;
    }
  }

  lemma {:induction false} SubsAgree(st: State)
    requires Inv(st)
    ensures forall i | i in st.t.topicSubs :: Ascending(st.t.topicSubs[i]) && forall s | s in st.t.topicSubs[i] :: s in st.s.subscriptions
    ensures st.s.subscriptions.Keys == st.s.subValues.Keys == st.s.sendTimes.Keys
    ensures forall s | s in st.s.subscriptions :: s < st.counters.subIdx
  {
    hide TopicInv, ClientInv, MailInv, Delivered, Ascending;
    forall i | i in st.t.topicSubs ensures Ascending(st.t.topicSubs[i]) && forall s | s in st.t.topicSubs[i] :: s in st.s.subscriptions {
      assert ListExact(st.t.topicSubs[i], i, st.s.subscriptions.Keys, st.log.births);
    }
  }

  /** The tables agree in every state of every run, also when a handler stopped half way. */
  lemma {:induction false} RunAgreement(states: seq<State>, ops: seq<Op>, j: nat)
    requires IsRun(states, ops) && j <= |ops|
    ensures Agreement(states[j])
  {
    hide Inv, Init, Step, Enabled;
    RunInv(states, ops, j);
    hide *;
    InvAgrees(states[j]);
  }

  lemma {:induction false} InvAgrees(st: State)
    requires Inv(st)
    ensures Agreement(st)
  {
    TopicsAgree(st);
    SubsAgree(st);
    assert forall c | c in st.c.clients :: c < st.counters.clientIdx by { hide TopicInv, IndexInv, SubInv, MailInv, Routed, Owned; }
    hide Inv, Ascending;
  }

  /** So subscribing fails for unknown clients only, and setting a value finds a list and every listed store. */
  lemma {:induction false} NoLookupFails(states: seq<State>, ops: seq<Op>, j: nat, sub: Subscription, c: ClientIdx, order: seq<string>, now: nat, v: TimestampedValue, i: TopicIdx)
    requires IsRun(states, ops) && j <= |ops| && Enumerates(order, states[j].t.topicMap.Keys)
    ensures SubscribeStep(states[j], sub, c, order, now).out == if c in states[j].c.clients then Ok(()) else Err(ClientDoesNotExist)
    ensures SetValueStep(states[j], v, i).out.Ok? <==> i in states[j].t.topics && '$' !in states[j].t.topics[i].name
    ensures i in states[j].t.topics ==> i in states[j].t.topicSubs && forall s | s in states[j].t.topicSubs[i] :: s in states[j].s.subValues
  {
    hide Inv, Init, Step, Enabled;
    RunInv(states, ops, j);
    hide IsRun, SubscribeStep, SetValueStep, Enumerates;
    SubscribeOut(states[j], sub, c, order, now);
    SetValueOut(states[j], v, i);
  }

  lemma {:induction false} SubscribeOut(st: State, sub: Subscription, c: ClientIdx, order: seq<string>, now: nat)
    requires Inv(st) && Enumerates(order, st.t.topicMap.Keys)
    ensures SubscribeStep(st, sub, c, order, now).out == if c in st.c.clients then Ok(()) else Err(ClientDoesNotExist)
  {
    hide Inv;
    SubscribeInv(st, sub, c, order, now);
    hide VisitAll, Enrol, Deliver, Matches;
  }

  lemma {:induction false} SetValueOut(st: State, v: TimestampedValue, i: TopicIdx)
    requires Inv(st)
    ensures SetValueStep(st, v, i).out.Ok? <==> i in st.t.topics && '$' !in st.t.topics[i].name
    ensures i in st.t.topics ==> i in st.t.topicSubs && forall s | s in st.t.topicSubs[i] :: s in st.s.subValues
  {
    ValueSteps.SetValueInv(st, v, i);
    hide Inv, Queued, Append, Replace;
  }

  // ---- ownership ----

  /** The two-way map of a client leads to its own subscriptions, each under one uid. */
  ghost predicate OwnSubscriptions(st: State, c: ClientIdx)
    requires c in st.c.clients
  {
    var subs := st.c.clients[c].subs;
    && (forall u, w | u in subs.fwd && w in subs.fwd && subs.fwd[u] == subs.fwd[w] :: u == w)
    && (forall u | u in subs.fwd :: subs.fwd[u] in subs.rev && subs.rev[subs.fwd[u]] == u)
    && (forall u | u in subs.fwd :: OwnedBy(st.s.subscriptions, subs.fwd[u], c, u))
  }

  lemma {:induction false} RunOwnership(states: seq<State>, ops: seq<Op>, j: nat, c: ClientIdx, d: ClientIdx)
    requires IsRun(states, ops) && j <= |ops| && c in states[j].c.clients && d in states[j].c.clients
    ensures OwnSubscriptions(states[j], c)
    ensures c != d ==> forall u, w | u in states[j].c.clients[c].subs.fwd && w in states[j].c.clients[d].subs.fwd ::
      states[j].c.clients[c].subs.fwd[u] != states[j].c.clients[d].subs.fwd[w]
  {
    hide Inv, Init, Step, Enabled;
    RunInv(states, ops, j);
    hide IsRun, OwnSubscriptions;
    Ownership(states[j], c, d);
  }

  lemma {:induction false} Ownership(st: State, c: ClientIdx, d: ClientIdx)
    requires Inv(st) && c in st.c.clients && d in st.c.clients
    ensures OwnSubscriptions(st, c)
    ensures c != d ==> forall u, w | u in st.c.clients[c].subs.fwd && w in st.c.clients[d].subs.fwd ::
      st.c.clients[c].subs.fwd[u] != st.c.clients[d].subs.fwd[w]
  {
    hide TopicInv, IndexInv, SubInv, MailInv, Seated, Routed;
    assert st.c.clients[c].subs.Inverts();
    forall u, w | c != d && u in st.c.clients[c].subs.fwd && w in st.c.clients[d].subs.fwd
      ensures st.c.clients[c].subs.fwd[u] != st.c.clients[d].subs.fwd[w]
    {
      assert OwnedBy(st.s.subscriptions, st.c.clients[c].subs.fwd[u], c, u) && OwnedBy(st.s.subscriptions, st.c.clients[d].subs.fwd[w], d, w);
    }
  }

  // ---- leaving for good ----

  /** A subscription occurs in no table and no list. */
  ghost predicate Nowhere(st: State, s: SubIdx) {
    && s !in st.s.subscriptions && s !in st.s.subValues && s !in st.s.sendTimes
    && (forall i | i in st.t.topicSubs :: s !in st.t.topicSubs[i])
    && (forall c, u | c in st.c.clients && u in st.c.clients[c].subs.fwd :: st.c.clients[c].subs.fwd[u] != s)
  }

  lemma {:induction false} AbsentNowhere(st: State, s: SubIdx)
    requires Inv(st) && s !in st.s.subscriptions
    ensures Nowhere(st, s)
  {
    SubsAgree(st);
    assert Owned(st.c.clients, st.s.subscriptions) by { hide TopicInv, IndexInv, SubInv, MailInv, Seated, Routed, Owned; }
    hide Inv;
  }

  /** The client's subscription under a uid is gone from then on, whatever happens later. */
  lemma {:induction false} UnsubscribedForGood(states: seq<State>, ops: seq<Op>, k: nat, j: nat)
    requires IsRun(states, ops) && k < j <= |ops| && ops[k].OpUnsubscribe? && ops[k].client in states[k].c.clients
    requires AsU32(ops[k].subuid) in states[k].c.clients[ops[k].client].subs.fwd
    ensures Nowhere(states[j], states[k].c.clients[ops[k].client].subs.fwd[AsU32(ops[k].subuid)])
  {
    var c, u := ops[k].client, AsU32(ops[k].subuid);
    var s := states[k].c.clients[c].subs.fwd[u];
    hide Inv, IsRun, UnsubscribeStep, Nowhere;
    RunInv(states, ops, k);
    RunInv(states, ops, j);
    UnsubscribeAt(states, ops, k);
    UnsubscribeRemoves(states[k], ops[k].subuid, c);
    if s in states[j].s.subscriptions {
      SameSubscription(states, ops, s, k + 1, j);
    }
    AbsentNowhere(states[j], s);
  }

  lemma {:induction false} UnsubscribeAt(states: seq<State>, ops: seq<Op>, k: nat)
    requires IsRun(states, ops) && k < |ops| && ops[k].OpUnsubscribe?
    ensures states[k + 1] == UnsubscribeStep(states[k], ops[k].subuid, ops[k].client).st
  {
    hide UnsubscribeStep, Init;
  }

  lemma {:induction false} UnsubscribeRemoves(st: State, subuid: i32, c: ClientIdx)
    requires Inv(st) && c in st.c.clients && AsU32(subuid) in st.c.clients[c].subs.fwd
    ensures var r, s := UnsubscribeStep(st, subuid, c).st, st.c.clients[c].subs.fwd[AsU32(subuid)];
      s !in r.s.subscriptions && s < r.counters.subIdx
  {
    OwnedBelow(st, c, AsU32(subuid));
    hide Inv, WithoutSub;
  }

  lemma {:induction false} OwnedBelow(st: State, c: ClientIdx, u: SubUID)
    requires Inv(st) && c in st.c.clients && u in st.c.clients[c].subs.fwd
    ensures st.c.clients[c].subs.fwd[u] < st.counters.subIdx
  {
    SubsAgree(st);
    assert Owned(st.c.clients, st.s.subscriptions) by { hide TopicInv, IndexInv, SubInv, MailInv, Seated, Routed, Owned; }
    assert OwnedBy(st.s.subscriptions, st.c.clients[c].subs.fwd[u], c, u);
    hide Inv;
  }

  // ---- round trip ----

  lemma {:induction false} AppendedWithout(list: seq<SubIdx>, s: SubIdx)
    requires s !in list
    ensures Without(list + [s], [s]) == list && Without(list, [s]) == list
  {
    MergeReduce(list, s);
    WithoutNothing(list, [s]);
  }

  lemma {:induction false} VisitedThenLeft(t: TopicTables, v: Visit, s: SubIdx, found: seq<(TopicIdx, string)>)
    requires Visited(v, t, s, found) && forall i | i in t.topicSubs :: s !in t.topicSubs[i]
    ensures WithoutSub(v.lists, s) == t.topicSubs
  {
    forall i | i in t.topicSubs ensures Without(v.lists[i], [s]) == t.topicSubs[i] {
      AppendedWithout(t.topicSubs[i], s);
    }
    hide Without, Ids;
  }

  lemma {:induction false} EnterAndLeave(s: SubTables, k: SubIdx, entry: (Subscription, ClientIdx), store: StoredSubValue, now: nat)
    requires k !in s.subscriptions && k !in s.subValues && k !in s.sendTimes
    ensures s.subscriptions[k := entry] - {k} == s.subscriptions && s.subValues[k := store] - {k} == s.subValues && s.sendTimes[k := now] - {k} == s.sendTimes
  {}

  lemma {:induction false} NotYetThere(st: State)
    requires Inv(st)
    ensures st.counters.subIdx !in st.s.subscriptions && st.counters.subIdx !in st.s.subValues && st.counters.subIdx !in st.s.sendTimes
    ensures forall i | i in st.t.topicSubs :: st.counters.subIdx !in st.t.topicSubs[i]
  {
    NotYetListed(st);
    SubsAgree(st);
    hide Inv, Ascending;
  }

  lemma {:induction false} UnsubscribeShape(st: State, subuid: i32, c: ClientIdx)
    requires c in st.c.clients && AsU32(subuid) in st.c.clients[c].subs.fwd
    ensures var s := st.c.clients[c].subs.fwd[AsU32(subuid)];
      var r := UnsubscribeStep(st, subuid, c);
      && r.out.Ok? && r.st.t == st.t.(topicSubs := WithoutSub(st.t.topicSubs, s))
      && r.st.s == SubTables(st.s.subscriptions - {s}, st.s.subValues - {s}, st.s.sendTimes - {s})
      && c in r.st.c.clients && r.st.c.clients[c].subs.fwd == st.c.clients[c].subs.fwd - {AsU32(subuid)}
  {
    hide WithoutSub;
  }

  /** What subscribing does to the tables that unsubscribing touches. */
  lemma {:induction false} SubscribeTables(st: State, sub: Subscription, c: ClientIdx, order: seq<string>, now: nat)
    requires Inv(st) && Enumerates(order, st.t.topicMap.Keys) && c in st.c.clients
    ensures var s := st.counters.subIdx;
      var found := Matches(st.t.topicMap, sub, order);
      var v := VisitAll(st.t, s, found);
      var r := SubscribeStep(st, sub, c, order, now);
      && r.out.Ok? && r.st.t == st.t.(topicSubs := v.lists) && Visited(v, st.t, s, found)
      && r.st.s == SubTables(st.s.subscriptions[s := (sub, c)], st.s.subValues[s := NewStore(sub)], st.s.sendTimes[s := now])
      && c in r.st.c.clients && r.st.c.clients[c].subs.fwd == st.c.clients[c].subs.fwd[AsU32(sub.subuid) := s]
  {
    var s := st.counters.subIdx;
    var v := VisitAll(st.t, s, Matches(st.t.topicMap, sub, order));
    SubscribeShape(st, sub, c, order, now);
    SubscribeVisits(st, sub, order);
    Mailing.SeatedPart(st);
    WelcomedParts(st.c, c, st.counters.clientIdx, sub, s, v);
    hide Inv, SubscribeStep, VisitAll, Matches, Ids, Welcomed, Greeted, NewStore, BirthOf, AnnouncesFound, SendsCached, Finds, Visited, Seated;
  }

  /** Subscribing under an unused uid and unsubscribing again restores every list, every subscription table and the client's uids. */
  lemma {:induction false} SubscribeUnsubscribe(st: State, sub: Subscription, c: ClientIdx, order: seq<string>, now: nat)
    requires Inv(st) && Enumerates(order, st.t.topicMap.Keys) && c in st.c.clients && AsU32(sub.subuid) !in st.c.clients[c].subs.fwd
    ensures var r := SubscribeStep(st, sub, c, order, now);
      var q := UnsubscribeStep(r.st, sub.subuid, c);
      && r.out.Ok? && q.out.Ok?
      && q.st.t == st.t && q.st.s == st.s
      && c in q.st.c.clients && q.st.c.clients[c].subs.fwd == st.c.clients[c].subs.fwd
  {
    var s := st.counters.subIdx;
    hide Inv, SubscribeStep, UnsubscribeStep, VisitAll, Matches, NewStore, WithoutSub, Visited;
    SubscribeTables(st, sub, c, order, now);
    NotYetThere(st);
    var found := Matches(st.t.topicMap, sub, order);
    VisitedThenLeft(st.t, VisitAll(st.t, s, found), s, found);
    EnterAndLeave(st.s, s, (sub, c), NewStore(sub), now);
    UnsubscribeShape(SubscribeStep(st, sub, c, order, now).st, sub.subuid, c);
    assert st.c.clients[c].subs.fwd[AsU32(sub.subuid) := s] - {AsU32(sub.subuid)} == st.c.clients[c].subs.fwd;
  }

  /** So it is at any point of any run. */
  lemma {:induction false} SubscribeLeavesNoTrace(states: seq<State>, ops: seq<Op>, j: nat, sub: Subscription, c: ClientIdx, order: seq<string>, now: nat)
    requires IsRun(states, ops) && j <= |ops| && Enumerates(order, states[j].t.topicMap.Keys)
    requires c in states[j].c.clients && AsU32(sub.subuid) !in states[j].c.clients[c].subs.fwd
    ensures var st := states[j];
      var r := SubscribeStep(st, sub, c, order, now);
      var q := UnsubscribeStep(r.st, sub.subuid, c);
      && r.out.Ok? && q.out.Ok?
      && q.st.t == st.t && q.st.s == st.s
      && c in q.st.c.clients && q.st.c.clients[c].subs.fwd == st.c.clients[c].subs.fwd
  {
    hide Inv, Init, Step, Enabled, SubscribeStep, UnsubscribeStep;
    RunInv(states, ops, j);
    SubscribeUnsubscribe(states[j], sub, c, order, now);
  }
}
