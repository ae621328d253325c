/** What single operations do to the tables, field by field. */
module Effects {
  import opened Basics
  import opened BiMap
  import opened Protocol
  import opened MetaTopic
  import opened SubValue
  import opened ServerModel
  import opened Invariants
  import opened TopicSteps
  import opened ClientSteps
  import opened Subscribing
  import opened Handlers
  import opened Growth
  import opened Lockstep
  import opened History
  import opened Delivery
  import opened TopicLives
  import opened Channels
  import opened Announcing
  import opened OrdinaryTopics
  import opened RoundTrips
  import opened Meanings

  // ---- properties ----

  function Retained(topic: Topic): Option<bool> {
    if topic.properties.Some? then topic.properties.value.retained else None
  }

  function Persistent(topic: Topic): Option<bool> {
    if topic.properties.Some? then topic.properties.value.persistent else None
  }

  /** A topic after an update: each field is the update's, if that has it, or what it was. */
  predicate UpdatedTo(was: Topic, now: Topic, update: PublishProperties) {
    && now.name == was.name && now.kind == was.kind && now.properties.Some?
    && Retained(now) == (if update.retained.Some? then update.retained else Retained(was))
    && Persistent(now) == (if update.persistent.Some? then update.persistent else Persistent(was))
  }

  /** Setting properties by a name in use whose topic is live updates that topic and nothing else; in any other case it fails and changes nothing. */
  lemma {:induction false} SetPropertiesExact(st: State, name: string, update: PublishProperties)
    ensures var r := SetPropertiesStep(st, name, update);
      if name in st.t.topicMap && st.t.topicMap[name] in st.t.topics then
        var i := st.t.topicMap[name];
        && r.out.Ok? && i in r.st.t.topics && UpdatedTo(st.t.topics[i], r.st.t.topics[i], update)
        && r.st == st.(t := st.t.(topics := st.t.topics[i := r.st.t.topics[i]]))
      else r == Result(st, Err(TopicDoesNotExist))
  {}

  /** None was added but new ones. */
  ghost predicate KeepsTopics(a: State, b: State) {
    && a.counters.topicIdx <= b.counters.topicIdx
    && (forall i | i in b.t.topics && i < a.counters.topicIdx :: i in a.t.topics && b.t.topics[i] == a.t.topics[i])
  }

  lemma {:induction false} KeepsTrans(a: State, b: State, c: State)
    requires KeepsTopics(a, b) && KeepsTopics(b, c)
    ensures KeepsTopics(a, c)
  {}

  lemma {:induction false} AllocKeeps(st: State, topic: Topic)
    ensures KeepsTopics(st, Alloc(st, topic))
  {}

  lemma {:induction false} AnnounceKeeps(st: State, i: TopicIdx, response: Option<(PubUID, ClientIdx)>)
    ensures KeepsTopics(st, AnnounceTopic(st, i, response).st)
  {
    hide Told, Respond, Interested, AnnounceOf, SubsUntouched, SeatsUntouched;
  }

  lemma {:induction false} KeepsRefl(st: State)
    ensures KeepsTopics(st, st)
  {}

  lemma {:induction false} AddMetaKeeps(st: State, name: string)
    requires '$' in name
    ensures KeepsTopics(st, AddMeta(st, name).st)
  {
    hide Alloc, AnnounceTopic, KeepsTopics, SubsUntouched, SeatsUntouched;
    AllocKeeps(st, NewMeta(name));
    KeepsRefl(st);
    var r := AddTopic(st, NewMeta(name));
    AnnounceKeeps(r.st, r.out.value, None);
    KeepsTrans(st, r.st, AddMeta(st, name).st);
  }

  lemma {:induction false} AddTopicKeeps(st: State, topic: Topic)
    ensures KeepsTopics(st, AddTopic(st, topic).st)
  {
    hide Alloc, AddMeta, KeepsTopics, PubMeta, SubMeta, SubsUntouched, SeatsUntouched;
    AllocKeeps(st, topic);
    KeepsRefl(st);
    if topic.name !in st.t.topicMap && '$' !in topic.name {
      MetaNames(topic.name);
      var st1 := Alloc(st, topic);
      AddMetaKeeps(st1, PubMeta(topic.name));
      var p := AddMeta(st1, PubMeta(topic.name)).st;
      KeepsTrans(st, st1, p);
      AddMetaKeeps(p, SubMeta(topic.name));
      KeepsTrans(st, p, AddMeta(p, SubMeta(topic.name)).st);
    }
  }

  lemma {:induction false} PublishKeeps(st: State, p: PublishTopic, c: ClientIdx)
    ensures KeepsTopics(st, PublishStep(st, p, c).st)
  {
    hide AddTopic, AnnounceTopic, BindPub, UpdatePublishers, KeepsTopics, SubsUntouched, SeatsUntouched;
    AddTopicKeeps(st, FromPublishTopic(p));
    var a := AddTopic(st, FromPublishTopic(p));
    if a.out.Ok? {
      AnnounceKeeps(a.st, a.out.value, Some((p.pubuid, c)));
      var b := AnnounceTopic(a.st, a.out.value, Some((p.pubuid, c)));
      KeepsTrans(st, a.st, b.st);
      if b.out.Ok? && c in b.st.c.clients {
        TailQuiet(b.st, c, p, a.out.value);
        TailCounters(b.st, c, p, a.out.value);
        SameKeeps(st, b.st, PublishStep(st, p, c).st);
      }
    }
  }

  lemma {:induction false} TailCounters(st: State, c: ClientIdx, p: PublishTopic, i: TopicIdx)
    requires c in st.c.clients
    ensures UpdatePublishers(BindPub(st, c, p.pubuid, i, p.name), c, ClientPublisherMTE(p.name, p.pubuid), true).st.counters == st.counters
  {}

  lemma {:induction false} SameKeeps(a: State, b: State, c: State)
    requires KeepsTopics(a, b) && c.t.topics == b.t.topics && c.counters == b.counters
    ensures KeepsTopics(a, c)
  {}

  lemma {:induction false} RemovedFewer(t: TopicTables, i: TopicIdx)
    ensures Submap(Removed(t, i).0.topics, t.topics)
  {
    hide PubMeta, SubMeta;
  }

  lemma {:induction false} ReleaseKeeps(st: State, i: TopicIdx)
    requires i in st.p.pubCount
    ensures KeepsTopics(st, Release(st, i).st)
  {
    hide Removed, Bump, SubsUntouched, SeatsUntouched;
    RemovedFewer(st.t, i);
  }

  lemma {:induction false} UnpublishKeeps(st: State, pubuid: PubUID, c: ClientIdx)
    ensures KeepsTopics(st, UnpublishStep(st, pubuid, c).st)
  {
    hide Release, KeepsTopics, SubsUntouched, SeatsUntouched;
    KeepsRefl(st);
    if c in st.c.clients && pubuid in st.c.clients[c].pubs.fwd {
      var i, st1 := st.c.clients[c].pubs.fwd[pubuid], UnbindPub(st, c, pubuid);
      SameKeeps(st, st, st1);
      if i in st1.p.pubCount {
        ReleaseKeeps(st1, i);
        KeepsTrans(st, st1, Release(st1, i).st);
        SameKeeps(st, Release(st1, i).st, UnpublishStep(st, pubuid, c).st);
      }
    }
  }

  lemma {:induction false} ReleaseAllKeeps(st: State, pubs: map<PubUID, TopicIdx>, order: seq<PubUID>)
    requires forall u | u in order :: u in pubs
    ensures KeepsTopics(st, ReleaseAll(st, pubs, order).st)
  {
    hide Release, KeepsTopics, SubsUntouched, SeatsUntouched;
    KeepsRefl(st);
    if order != [] {
      var front, last := order[..|order| - 1], order[|order| - 1];
      assert last in order && forall u | u in front :: u in order;
      ReleaseAllKeeps(st, pubs, front);
      var before := ReleaseAll(st, pubs, front).st;
      if pubs[last] in before.p.pubCount {
        ReleaseKeeps(before, pubs[last]);
        KeepsTrans(st, before, Release(before, pubs[last]).st);
      }
    }
  }

  lemma {:induction false} RemoveKeeps(st: State, i: TopicIdx)
    ensures KeepsTopics(st, RemoveTopic(st, i).st)
  {
    hide Removed, SubsUntouched, SeatsUntouched;
    RemovedFewer(st.t, i);
  }

  lemma {:induction false} DropKeeps(st: State, idx: ClientIdx)
    ensures KeepsTopics(st, DropMetatopics(st, idx).st)
  {
    hide RemoveTopic, KeepsTopics, SubsUntouched, SeatsUntouched;
    KeepsRefl(st);
    if idx in st.p.clientMetatopics {
      var metas := st.p.clientMetatopics[idx];
      var st1 := st.(p := st.p.(clientMetatopics := st.p.clientMetatopics - {idx}));
      SameKeeps(st, st, st1);
      RemoveKeeps(st1, metas.0);
      var r := RemoveTopic(st1, metas.0).st;
      KeepsTrans(st, st1, r);
      RemoveKeeps(r, metas.1);
      KeepsTrans(st, r, RemoveTopic(r, metas.1).st);
    }
  }

  lemma {:induction false} DisconnectKeeps(st: State, identity: Identity, order: seq<PubUID>)
    requires forall u | u in order :: u in PubsOf(st.c, identity)
    ensures KeepsTopics(st, DisconnectStep(st, identity, order).st)
  {
    hide ReleaseAll, DropMetatopics, KeepsTopics, PubsOf, SubsUntouched, SeatsUntouched;
    KeepsRefl(st);
    if identity in st.c.clientMap {
      var st1 := Unregister(st, identity);
      SameKeeps(st, st, st1);
      ReleaseAllKeeps(st1, PubsOf(st.c, identity), order);
      var r := ReleaseAll(st1, PubsOf(st.c, identity), order).st;
      KeepsTrans(st, st1, r);
      DropKeeps(r, st.c.clientMap[identity]);
      KeepsTrans(st, r, DropMetatopics(r, st.c.clientMap[identity]).st);
    }
  }

  lemma {:induction false} ConnectKeeps(st: State, identity: Identity)
    ensures KeepsTopics(st, ConnectStep(st, identity).st)
  {
    hide AddTopic, KeepsTopics, RenamedIdentity, ClientPub, ClientSub, SubsUntouched, SeatsUntouched;
    KeepsRefl(st);
    if identity !in st.c.clientMap {
      var renamed := RenamedIdentity(st.c.clients, identity);
      var st1 := Register(st, renamed);
      SameCountKeeps(st, st1);
      AddTopicKeeps(st1, NewMeta(ClientPub(renamed.name)));
      var p := AddTopic(st1, NewMeta(ClientPub(renamed.name)));
      KeepsTrans(st, st1, p.st);
      AddTopicKeeps(p.st, NewMeta(ClientSub(renamed.name)));
      var s := AddTopic(p.st, NewMeta(ClientSub(renamed.name)));
      KeepsTrans(st, p.st, s.st);
      if p.out.Ok? && s.out.Ok? {
        SameCountKeepsMore(st, s.st, ConnectStep(st, identity).st);
      }
    }
  }

  lemma {:induction false} SameCountKeeps(a: State, b: State)
    requires b.t.topics == a.t.topics && b.counters.topicIdx == a.counters.topicIdx
    ensures KeepsTopics(a, b)
  {}

  lemma {:induction false} SameCountKeepsMore(a: State, b: State, c: State)
    requires KeepsTopics(a, b) && c.t.topics == b.t.topics && c.counters.topicIdx == b.counters.topicIdx
    ensures KeepsTopics(a, c)
  {}

  lemma {:induction false} OtherKeeps(st: State, op: Op)
    requires Enabled(st, op) && (op.OpSubscribe? || op.OpUnsubscribe? || op.OpSetValue? || op.OpClientValue? || op.OpSendOut?)
    ensures KeepsTopics(st, Step(st, op))
  {
    hide SubscribeStep, SendOutStep, Queued, Append, Replace, WithoutSub, SubsUntouched, SeatsUntouched, KeepsTopics;
    match op
    case OpSubscribe(sub, c, order, now) =>
      SubscribeTopics(st, sub, c, order, now);
      SameCountKeeps(st, Step(st, op));
    case OpUnsubscribe(_, _) => SameCountKeeps(st, Step(st, op));
    case OpSetValue(_, _) => SameCountKeeps(st, Step(st, op));
    case OpClientValue(_, _, _) => SameCountKeeps(st, Step(st, op));
    case OpSendOut(picks, now) =>
      SendOutFrame(st, picks, now);
      SameCountKeeps(st, Step(st, op));
  }

  lemma {:induction false} SubscribeTopics(st: State, sub: Subscription, c: ClientIdx, order: seq<string>, now: nat)
    requires forall n | n in order :: n in st.t.topicMap
    ensures var r := SubscribeStep(st, sub, c, order, now).st; r.t.topics == st.t.topics && r.counters.topicIdx == st.counters.topicIdx
  {
    hide Matches, VisitAll, Ids, NewStore, BirthOf, Deliver, BindSub;
  }

  lemma {:induction false} StepKeeps(st: State, op: Op)
    requires Enabled(st, op) && !op.OpSetProperties?
    ensures KeepsTopics(st, Step(st, op))
  {
    match op
    case OpConnect(identity) =>
      hide KeepsTopics, ConnectStep;
      ConnectKeeps(st, identity);
    case OpDisconnect(identity, order) =>
      hide KeepsTopics, DisconnectStep;
      DisconnectKeeps(st, identity, order);
    case OpPublish(p, c) =>
      hide KeepsTopics, PublishStep;
      PublishKeeps(st, p, c);
    case OpUnpublish(pubuid, c) =>
      hide KeepsTopics, UnpublishStep;
      UnpublishKeeps(st, pubuid, c);
    case OpSubscribe(_, _, _, _) =>
      hide *;
      OtherKeeps(st, op);
    case OpUnsubscribe(_, _) =>
      hide *;
      OtherKeeps(st, op);
    case OpSetValue(_, _) =>
      hide *;
      OtherKeeps(st, op);
    case OpClientValue(_, _, _) =>
      hide *;
      OtherKeeps(st, op);
    case OpSendOut(_, _) =>
      hide *;
      OtherKeeps(st, op);
  }

  /** The update an operation makes to topic `i`. */
  function UpdateOf(st: State, op: Op, i: TopicIdx): PublishProperties {
    if op.OpSetProperties? && Lookup(st.t.topicMap, op.name) == Some(i) then op.update else PublishProperties(None, None)
  }

  /** The field after the operations `lo`, ..., `hi - 1`: the last one set, or what it was. */
  function RetainedBy(states: seq<State>, ops: seq<Op>, i: TopicIdx, was: Option<bool>, lo: nat, hi: nat): Option<bool>
    requires |states| == |ops| + 1 && lo <= hi <= |ops|
    decreases hi
  {
    if lo == hi then was
    else if UpdateOf(states[hi - 1], ops[hi - 1], i).retained.Some? then UpdateOf(states[hi - 1], ops[hi - 1], i).retained
    else RetainedBy(states, ops, i, was, lo, hi - 1)
  }

  function PersistentBy(states: seq<State>, ops: seq<Op>, i: TopicIdx, was: Option<bool>, lo: nat, hi: nat): Option<bool>
    requires |states| == |ops| + 1 && lo <= hi <= |ops|
    decreases hi
  {
    if lo == hi then was
    else if UpdateOf(states[hi - 1], ops[hi - 1], i).persistent.Some? then UpdateOf(states[hi - 1], ops[hi - 1], i).persistent
    else PersistentBy(states, ops, i, was, lo, hi - 1)
  }

  lemma {:induction false} StepProperties(st: State, op: Op, i: TopicIdx)
    requires Enabled(st, op) && i < st.counters.topicIdx && i in Step(st, op).t.topics
    ensures i in st.t.topics
    ensures var a, b, u := st.t.topics[i], Step(st, op).t.topics[i], UpdateOf(st, op, i);
      && b.name == a.name && b.kind == a.kind
      && Retained(b) == (if u.retained.Some? then u.retained else Retained(a))
      && Persistent(b) == (if u.persistent.Some? then u.persistent else Persistent(a))
  {
    if op.OpSetProperties? {
      hide SetPropertiesStep;
      SetPropertiesExact(st, op.name, op.update);
    } else {
      hide Step, Enabled;
      StepKeeps(st, op);
    }
  }

  /** As long as a topic is live, its name and type are those it was published with, and each property is the last one set, or the
      published one if none was. */
  lemma {:induction false} PropertiesHistory(states: seq<State>, ops: seq<Op>, i: TopicIdx, lo: nat, hi: nat)
    requires IsRun(states, ops) && lo <= hi <= |ops| && i < states[lo].counters.topicIdx && i in states[hi].t.topics
    ensures i in states[lo].t.topics
    ensures var a, b := states[lo].t.topics[i], states[hi].t.topics[i];
      && b.name == a.name && b.kind == a.kind
      && Retained(b) == RetainedBy(states, ops, i, Retained(a), lo, hi)
      && Persistent(b) == PersistentBy(states, ops, i, Persistent(a), lo, hi)
    decreases hi
  {
    hide Init, Step, Enabled, UpdateOf, Retained, Persistent;
    if lo < hi {
      RunLaterCount(states, ops, lo, hi - 1);
      StepAt(states, ops, hi - 1);
      StepProperties(states[hi - 1], ops[hi - 1], i);
      PropertiesHistory(states, ops, i, lo, hi - 1);
    }
  }

  lemma {:induction false} RunLaterCount(states: seq<State>, ops: seq<Op>, lo: nat, hi: nat)
    requires IsRun(states, ops) && lo <= hi <= |ops|
    ensures states[lo].counters.topicIdx <= states[hi].counters.topicIdx
  {
    hide Inv, Init, Step, Enabled;
    RunLater(states, ops, lo, hi);
  }

  // ---- send times ----

  /** A new subscription counts as sent to just now; a pass does so for those it visits; all others keep their times. */
  lemma {:induction false} SubscribeTimes(st: State, sub: Subscription, c: ClientIdx, order: seq<string>, now: nat)
    requires Inv(st) && Enumerates(order, st.t.topicMap.Keys) && c in st.c.clients
    ensures var r, s := SubscribeStep(st, sub, c, order, now).st, st.counters.subIdx;
      r.s.sendTimes == st.s.sendTimes[s := now] && s !in st.s.sendTimes
  {
    hide Inv, VisitAll, Matches, Ids, Welcomed, NewStore, BirthOf, Visited, Finds, AnnouncesFound, SendsCached;
    SubscribeShape(st, sub, c, order, now);
    SubscribeVisits(st, sub, order);
    hide SubscribeStep;
    VisitedOk(VisitAll(st.t, st.counters.subIdx, Matches(st.t.topicMap, sub, order)), st.t, st.counters.subIdx, Matches(st.t.topicMap, sub, order));
    NextUntimed(st);
  }

  lemma {:induction false} NextUntimed(st: State)
    requires Inv(st)
    ensures st.counters.subIdx !in st.s.sendTimes
  {
    hide TopicInv, OwnNames, ClientInv, IndexInv, MailInv, Delivered;
  }

  lemma {:induction false} PassTimes(st: State, picks: seq<Pick>, now: nat, s: SubIdx)
    requires forall p | p in picks :: CanPick(st.s, p)
    ensures Lookup(SendOutStep(st, picks, now).s.sendTimes, s) == if Picked(picks, s) then Some(now) else Lookup(st.s.sendTimes, s)
  {
    hide SendSub, Picked;
    if picks == [] {
      PickedNone(s);
    } else {
      var front, last := picks[..|picks| - 1], picks[|picks| - 1];
      assert forall p | p in front :: p in picks;
      assert picks == front + [last] && CanPick(st.s, last);
      PassTimes(st, front, now, s);
      PickedEither(front, last, s);
      SendSubTimes(SendOutStep(st, front, now), last, now);
    }
  }

  lemma {:induction false} PickedEither(front: seq<Pick>, last: Pick, s: SubIdx)
    ensures Picked(front + [last], s) <==> Picked(front, s) || last.s == s
  {
    var picks := front + [last];
    assert picks[|front|] == last && forall k | 0 <= k < |front| :: picks[k] == front[k];
  }

  lemma {:induction false} SendSubTimes(st: State, p: Pick, now: nat)
    requires CanPick(st.s, p)
    ensures SendSub(st, p, now).s.sendTimes == st.s.sendTimes[p.s := now]
  {
    hide Batches, Joined, Deliver;
  }

  // ---- arriving and leaving ----

  /** A newcomer that is not known gets the next client index, an empty record with an output, an empty channel and two metatopics under its
      new name; nobody else's record, channel or pair changes. */
  lemma {:induction false} ConnectExact(st: State, identity: Identity)
    requires Inv(st)
    ensures var r, idx := ConnectStep(st, identity), st.counters.clientIdx;
      if identity in st.c.clientMap then r == Result(st, Err(ClientAlreadyExists))
      else
        && r.out.Ok? && r.out.value == (RenamedIdentity(st.c.clients, identity), idx) && r.st.counters.clientIdx == idx + 1
        && var renamed := r.out.value.0;
        && r.st.c.clientMap == st.c.clientMap[renamed := idx] && r.st.c.outboxes == st.c.outboxes[idx := []]
        && idx in r.st.c.clients && r.st.c.clients == st.c.clients[idx := r.st.c.clients[idx]]
        && var client := r.st.c.clients[idx];
        && client.identity == renamed && client.hasOutput && client.announced == {} && client.pubs.fwd == map[] && client.subs.fwd == map[]
        && idx in r.st.p.clientMetatopics && r.st.p.clientMetatopics == st.p.clientMetatopics[idx := r.st.p.clientMetatopics[idx]]
        && var metas := r.st.p.clientMetatopics[idx];
        && Lookup(r.st.t.topicMap, "$clientpub$" + renamed.name) == Some(metas.0)
        && Lookup(r.st.t.topicMap, "$clientsub$" + renamed.name) == Some(metas.1)
  {
    hide Inv, RenamedIdentity, AddTopic, ClientPub, ClientSub, Register, SubsUntouched, SeatsUntouched;
    if identity !in st.c.clientMap {
      var renamed := RenamedIdentity(st.c.clients, identity);
      var st1 := Register(st, renamed);
      RegisterInv(st, renamed);
      RegisterExact(st, renamed);
      ClientNames(renamed.name);
      ReservedNamesMean(renamed.name);
      LeafTables(st1, NewMeta(ClientPub(renamed.name)));
      AddTopicLeaf(st1, NewMeta(ClientPub(renamed.name)));
      LeafRest(st1, NewMeta(ClientPub(renamed.name)));
      var p := AddTopic(st1, NewMeta(ClientPub(renamed.name)));
      LeafTables(p.st, NewMeta(ClientSub(renamed.name)));
      LeafRest(p.st, NewMeta(ClientSub(renamed.name)));
    }
  }

  lemma {:induction false} LeafRest(st: State, topic: Topic)
    requires '$' in topic.name
    ensures var r := AddTopic(st, topic).st;
      r.c == st.c && r.p.clientMetatopics == st.p.clientMetatopics && r.counters.clientIdx == st.counters.clientIdx
  {
    hide SubsUntouched, SeatsUntouched;
  }

  lemma {:induction false} RegisterExact(st: State, identity: Identity)
    ensures var r, idx := Register(st, identity), st.counters.clientIdx;
      && r.c.clientMap == st.c.clientMap[identity := idx] && r.c.outboxes == st.c.outboxes[idx := []]
      && r.c.clients == st.c.clients[idx := ConnectedClient(identity, PrimBiMap(map[], map[]), PrimBiMap(map[], map[]), true, {})]
      && r.p.clientMetatopics == st.p.clientMetatopics && r.counters.clientIdx == idx + 1 && r.t == st.t
  {
    hide SubsUntouched, SeatsUntouched;
  }

  /** A disconnect takes the client out of both client tables, however it ends; channels, subscriptions and everybody else's records stay. */
  lemma {:induction false} DisconnectExact(st: State, identity: Identity, order: seq<PubUID>)
    requires Inv(st) && forall u | u in order :: u in PubsOf(st.c, identity)
    ensures var r := DisconnectStep(st, identity, order);
      if identity !in st.c.clientMap then r == Result(st, Err(ClientDoesNotExist))
      else
        && r.st.c == ClientTables(st.c.clientMap - {identity}, st.c.clients - {st.c.clientMap[identity]}, st.c.outboxes)
        && r.st.s == st.s && r.st.log == st.log
  {
    hide Inv, ReleaseAll, DropMetatopics, PubsOf;
    if identity in st.c.clientMap {
      var st1, idx := Unregister(st, identity), st.c.clientMap[identity];
      ReleaseAllClients(st1, PubsOf(st.c, identity), order);
      DropClients(ReleaseAll(st1, PubsOf(st.c, identity), order).st, idx);
    }
    hide SeatsUntouched;
  }

  // ---- adding and removing topics ----

  /** Adding a topic under a reserved name: the id in use, or the next one with an empty list and its initial count, and nothing else. */
  lemma {:induction false} AddReservedExact(st: State, topic: Topic)
    requires '$' in topic.name
    ensures var r, i := AddTopic(st, topic), st.counters.topicIdx;
      if topic.name in st.t.topicMap then r == Result(st, Ok(st.t.topicMap[topic.name]))
      else
        && r.out == Ok(i) && r.st.counters == st.counters.(topicIdx := i + 1)
        && r.st.t == TopicTables(st.t.topics[i := topic], st.t.topicMap[topic.name := i], st.t.topicSubs[i := []], st.t.topicValues)
        && r.st.p == st.p.(pubCount := st.p.pubCount[i := if Outlives(topic.properties) then 2 else 1])
        && r.st.c == st.c && r.st.s == st.s
  {
    hide SubsUntouched, SeatsUntouched;
  }

  /** What a removal leaves of the topic tables in each of its four exits. */
  lemma {:induction false} RemoveExact(st: State, i: TopicIdx)
    ensures var r := RemoveTopic(st, i);
      if i !in st.t.topics then r == Result(st, Err(TopicDoesNotExist))
      else
        var name := st.t.topics[i].name;
        if "$pub$" + name !in st.t.topicMap then
          r == Result(st.(t := st.t.(topics := st.t.topics - {i})), Err(TopicDoesNotExist))
        else if "$sub$" + name !in st.t.topicMap then
          r == Result(st.(t := st.t.(topics := st.t.topics - {i}, topicMap := st.t.topicMap - {"$pub$" + name})), Err(TopicDoesNotExist))
        else
          var p, s := st.t.topicMap["$pub$" + name], st.t.topicMap["$sub$" + name];
          r == Result(
            st.(t := TopicTables(st.t.topics - {i, p, s}, st.t.topicMap - {"$pub$" + name, "$sub$" + name, name}, st.t.topicSubs - {i, p, s}, st.t.topicValues - {i}),
                p := st.p.(metaValues := st.p.metaValues - {p, s})),
            Ok(()))
  {
    if i in st.t.topics {
      MetaInjective(st.t.topics[i].name, st.t.topics[i].name);
      ReservedNamesMean(st.t.topics[i].name);
    }
    hide PubMeta, SubMeta, SubsUntouched, SeatsUntouched;
  }

  /** The topic as published and its two metatopics, with their names, empty lists and initial counts; and the pubuid leads there. */
  ghost predicate NewTopicMade(st: State, r: Result<TopicIdx>, p: PublishTopic, c: ClientIdx) {
    var i := st.counters.topicIdx;
    && r.out == Ok(i) && r.st.counters == st.counters.(topicIdx := i + 3)
    && r.st.t == TopicTables(
         st.t.topics[i := Topic(p.name, p.kind, p.properties)][i + 1 := Topic("$pub$" + p.name, "raw", None)][i + 2 := Topic("$sub$" + p.name, "raw", None)],
         st.t.topicMap[p.name := i]["$pub$" + p.name := i + 1]["$sub$" + p.name := i + 2],
         st.t.topicSubs[i := []][i + 1 := []][i + 2 := []], st.t.topicValues)
    && r.st.p.pubCount == st.p.pubCount[i := if Outlives(p.properties) then 2 else 1][i + 1 := 1][i + 2 := 1]
    && c in st.c.clients && c in r.st.c.clients && r.st.c.clients[c].pubs.fwd == st.c.clients[c].pubs.fwd[p.pubuid := i]
  }

  /** In runs that publish `$`-free names, that is what publishing a new one by a connected client does. */
  lemma {:induction false} PublishNewExact(states: seq<State>, ops: seq<Op>, j: nat, p: PublishTopic, c: ClientIdx)
    requires IsFreeRun(states, ops) && j <= |ops| && Ordinary(p.name) && c in states[j].c.clients && p.name !in states[j].t.topicMap
    ensures NewTopicMade(states[j], PublishStep(states[j], p, c), p, c)
  {
    hide Init, Step, Enabled, Inv, FreeCore, Ordinary, PublishStep, ThreeMore, NewTopicMade, SubsUntouched, SeatsUntouched;
    FreeState(states, ops, j);
    PublishSucceeds(states, ops, j, p, c);
    PublishNewParts(states[j], p, c);
  }

  lemma {:induction false} TrioTables(st: State, p: PublishTopic)
    ensures var r, i := Trio(st, FromPublishTopic(p)), st.counters.topicIdx;
      r.t == TopicTables(
         st.t.topics[i := Topic(p.name, p.kind, p.properties)][i + 1 := Topic("$pub$" + p.name, "raw", None)][i + 2 := Topic("$sub$" + p.name, "raw", None)],
         st.t.topicMap[p.name := i]["$pub$" + p.name := i + 1]["$sub$" + p.name := i + 2],
         st.t.topicSubs[i := []][i + 1 := []][i + 2 := []], st.t.topicValues)
  {
    hide SubsUntouched, SeatsUntouched, PubMeta, SubMeta;
    ReservedNamesMean(p.name);
  }

  lemma {:induction false} PublishNewParts(st: State, p: PublishTopic, c: ClientIdx)
    requires Inv(st) && FreeCore(st) && Ordinary(p.name) && p.name !in st.t.topicMap && c in st.c.clients
    requires var r := PublishStep(st, p, c);
      && r.out.Ok? && c in r.st.c.clients && p.name in r.st.t.topicMap && ThreeMore(st, r.st, FromPublishTopic(p))
      && r.st.c.clients[c].pubs.fwd == st.c.clients[c].pubs.fwd[p.pubuid := r.st.t.topicMap[p.name]]
    ensures NewTopicMade(st, PublishStep(st, p, c), p, c)
  {
    hide Inv, FreeCore, Ordinary, PublishStep, ThreeMore, PubMeta, SubMeta, NewMeta, Trio, AddTopic, SamePubs, Topic.HasImplicitPublisher, SubsUntouched, SeatsUntouched;
    TogetherIn(st, p.name);
    NewTopicIdx(st, PublishStep(st, p, c).st, FromPublishTopic(p));
    AddOrdinaryExact(st, FromPublishTopic(p));
    TrioCounts(st, FromPublishTopic(p));
    OutlivesMeans(p);
    PublishLog(st, p, c);
    PublishCounters(st, p, c);
    TrioCounters(st, FromPublishTopic(p));
    TrioTables(st, p);
  }

  lemma {:induction false} OutlivesMeans(p: PublishTopic)
    ensures FromPublishTopic(p).HasImplicitPublisher() <==> Outlives(p.properties)
    ensures FromPublishTopic(p).name == p.name
  {}

  lemma {:induction false} TrioCounters(st: State, topic: Topic)
    ensures Trio(st, topic).counters == st.counters.(topicIdx := st.counters.topicIdx + 3)
  {
    hide SubsUntouched, SeatsUntouched, PubMeta, SubMeta;
  }

  lemma {:induction false} PublishCounters(st: State, p: PublishTopic, c: ClientIdx)
    ensures PublishStep(st, p, c).st.counters == AddTopic(st, FromPublishTopic(p)).st.counters
    ensures PublishStep(st, p, c).out.Ok? ==> PublishStep(st, p, c).out == AddTopic(st, FromPublishTopic(p)).out
  {
    hide AddTopic, Told, Respond, AnnounceOf, Interested, SubsUntouched, SeatsUntouched;
  }

  // ---- errors ----

  /** Requests of unknown clients, for unknown uids and for topics that are gone fail with their own errors, and change nothing. */
  lemma {:induction false} ErrorsExact(st: State, c: ClientIdx, pubuid: PubUID, subuid: i32, sub: Subscription, order: seq<string>, now: nat,
                                       v: TimestampedValue, i: TopicIdx, response: Option<(PubUID, ClientIdx)>)
    requires forall n | n in order :: n in st.t.topicMap
    ensures c !in st.c.clients ==>
      && UnpublishStep(st, pubuid, c) == Result(st, Err(ClientDoesNotExist))
      && UnsubscribeStep(st, subuid, c) == Result(st, Err(ClientDoesNotExist))
      && SubscribeStep(st, sub, c, order, now) == Result(st, Err(ClientDoesNotExist))
    ensures c in st.c.clients && pubuid !in st.c.clients[c].pubs.fwd ==> UnpublishStep(st, pubuid, c) == Result(st, Err(TopicDoesNotExist))
    ensures c in st.c.clients && AsU32(subuid) !in st.c.clients[c].subs.fwd ==> UnsubscribeStep(st, subuid, c) == Result(st, Err(SubscriptionDoesNotExist))
    ensures i !in st.t.topics ==>
      && SetValueStep(st, v, i) == Result(st, Err(TopicDoesNotExist))
      && AnnounceTopic(st, i, response) == Result(st, Err(TopicDoesNotExist))
    ensures i in st.t.topics && '$' in st.t.topics[i].name ==> SetValueStep(st, v, i) == Result(st, Err(NotNormalTopic))
    ensures i in st.t.topics && response.Some? && response.value.1 !in st.c.clients ==> AnnounceTopic(st, i, response) == Result(st, Err(ClientDoesNotExist))
  {
    hide Release, UpdatePublishers, Matches, VisitAll, Told, Respond, Queued, SubsUntouched, SeatsUntouched;
  }

  /** A pubuid of a topic that is not counted is given up, and that is all; a connected client's publish fails only where adding or announcing
      the topic does, and an unknown client's leaves the topic it added. */
  lemma {:induction false} HalfWay(st: State, c: ClientIdx, pubuid: PubUID, p: PublishTopic)
    ensures c in st.c.clients && pubuid in st.c.clients[c].pubs.fwd && st.c.clients[c].pubs.fwd[pubuid] !in st.p.pubCount ==>
      var r := UnpublishStep(st, pubuid, c);
      && r.out == Err(TopicDoesNotExist) && r.st == st.(c := r.st.c) && c in r.st.c.clients
      && r.st.c.clients[c].pubs.fwd == st.c.clients[c].pubs.fwd - {pubuid}
    ensures var a := AddTopic(st, FromPublishTopic(p));
      a.out.Ok? && a.out.value in a.st.t.topics && c !in a.st.c.clients ==> PublishStep(st, p, c) == Result(a.st, Err(ClientDoesNotExist))
  {
    hide Release, UpdatePublishers, AddTopic, Told, Respond, SubsUntouched, SeatsUntouched;
  }
}
