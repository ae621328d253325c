/** What publishing and removing ordinary topics does, in every run whose published names contain no `$`. */
module OrdinaryTopics {
  import opened Basics
  import opened BiMap
  import opened Protocol
  import opened MetaTopic
  import opened SubValue
  import opened ServerModel
  import opened Invariants
  import opened TopicSteps
  import opened ClientSteps
  import opened Handlers
  import opened Lockstep
  import opened FreeRuns
  import opened History
  import opened Delivery
  import opened TopicLives

  /** A name and its two metatopic names are in use together, and then all three stand for live topics. */
  lemma {:induction false} TogetherAlways(states: seq<State>, ops: seq<Op>, j: nat, n: string)
    requires IsFreeRun(states, ops) && j <= |ops| && Ordinary(n)
    ensures var t := states[j].t;
      && (n in t.topicMap <==> PubMeta(n) in t.topicMap) && (n in t.topicMap <==> SubMeta(n) in t.topicMap)
      && (n in t.topicMap ==> t.topicMap[n] in t.topics && t.topicMap[PubMeta(n)] in t.topics && t.topicMap[SubMeta(n)] in t.topics)
  {
    hide Init, Step, Enabled, Inv, FreeCore;
    FreeState(states, ops, j);
    TogetherIn(states[j], n);
  }

  lemma {:induction false} MetaNotClientPub(n: string)
    ensures !IsClientPub(PubMeta(n)) && !IsClientPub(SubMeta(n))
  {
    assert PubMeta(n)[1] == 'p' && SubMeta(n)[1] == 's' && "$clientpub$"[1] == 'c';
  }

  lemma {:induction false} TogetherIn(st: State, n: string)
    requires FreeCore(st) && Ordinary(n)
    ensures (n in st.t.topicMap <==> PubMeta(n) in st.t.topicMap) && (n in st.t.topicMap <==> SubMeta(n) in st.t.topicMap)
    ensures n in st.t.topicMap ==>
      st.t.topicMap[n] in st.t.topics && st.t.topicMap[PubMeta(n)] in st.t.topics && st.t.topicMap[SubMeta(n)] in st.t.topics
  {
    OrdinaryNotClientPub(n);
    MetaNotClientPub(n);
    hide Lifetimes, Serviced, KeptNames, Plain, Shaped, PubMeta, SubMeta, Ordinary, IsClientPub;
  }

  // ---- publishing ----

  /** A new name gets exactly three ids, for itself and its two metatopics. */
  ghost predicate ThreeMore(st: State, st': State, topic: Topic) {
    var i := st.counters.topicIdx;
    && st'.counters.topicIdx == i + 3
    && st'.t.topics == st.t.topics[i := topic][i + 1 := NewMeta(PubMeta(topic.name))][i + 2 := NewMeta(SubMeta(topic.name))]
    && st'.t.topicMap == st.t.topicMap[topic.name := i][PubMeta(topic.name) := i + 1][SubMeta(topic.name) := i + 2]
    && st'.t.topicSubs == st.t.topicSubs[i := []][i + 1 := []][i + 2 := []]
    && st'.t.topicValues == st.t.topicValues
  }

  lemma {:induction false} TrioThreeMore(st: State, topic: Topic)
    ensures ThreeMore(st, Trio(st, topic), topic)
  {
    hide SubsUntouched, SeatsUntouched, PubMeta, SubMeta;
  }

  /** What else the allocations do. */
  lemma {:induction false} TrioPubs(st: State, topic: Topic)
    ensures var r, i := Trio(st, topic), st.counters.topicIdx;
      && r.p.metaValues == st.p.metaValues && r.p.clientMetatopics == st.p.clientMetatopics
      && i in r.p.pubCount && r.p.pubCount[i] == if topic.HasImplicitPublisher() then 2 else 1
  {
    hide SubsUntouched, SeatsUntouched, PubMeta, SubMeta;
  }

  /** The parts of a publish that follow the topic: bookkeeping of one client, and its publisher list. */
  lemma {:induction false} PublishTail(st: State, p: PublishTopic, c: ClientIdx)
    requires var a := AddTopic(st, FromPublishTopic(p)); a.out.Ok? && a.out.value in a.st.t.topics && SamePubs(st.c, a.st.c)
    requires c in st.c.clients
    ensures var a, r := AddTopic(st, FromPublishTopic(p)), PublishStep(st, p, c);
      && r.st.t == a.st.t && r.st.counters == a.st.counters && r.st.p.pubCount == a.st.p.pubCount && r.st.s == a.st.s
      && r.st.c.clients.Keys == st.c.clients.Keys
      && r.st.c.clients[c].pubs.fwd == st.c.clients[c].pubs.fwd[p.pubuid := a.out.value]
      && r.st.p == UpdatePublishers(a.st, c, ClientPublisherMTE(p.name, p.pubuid), true).st.p
      && (r.out.Ok? ==> r.out == a.out)
  {
    var a := AddTopic(st, FromPublishTopic(p));
    AnnounceFrame(a.st, a.out.value, Some((p.pubuid, c)));
    hide AddTopic, AnnounceTopic, SubsUntouched, SeatsUntouched;
    var b := AnnounceTopic(a.st, a.out.value, Some((p.pubuid, c)));
    BindTail(b.st, c, p.pubuid, a.out.value, p.name);
    UpdatePart(a.st, BindPub(b.st, c, p.pubuid, a.out.value, p.name), c, ClientPublisherMTE(p.name, p.pubuid), true);
    UpdateRest(BindPub(b.st, c, p.pubuid, a.out.value, p.name), c, ClientPublisherMTE(p.name, p.pubuid), true);
    hide BindPub, UpdatePublishers;
  }

  lemma {:induction false} BindTail(st: State, c: ClientIdx, pubuid: PubUID, i: TopicIdx, name: string)
    requires c in st.c.clients
    ensures var r := BindPub(st, c, pubuid, i, name);
      && r.t == st.t && r.p == st.p && r.counters == st.counters && r.s == st.s
      && r.c.clients.Keys == st.c.clients.Keys && r.c.clients[c].pubs.fwd == st.c.clients[c].pubs.fwd[pubuid := i]
  {}

  lemma {:induction false} UpdateRest(st: State, c: ClientIdx, entry: ClientPublisherMTE, merge: bool)
    ensures var r := UpdatePublishers(st, c, entry, merge).st; r == st.(p := r.p) && r.p.pubCount == st.p.pubCount
  {}

  /** Publisher lists depend on nothing but the lists. */
  lemma {:induction false} UpdatePart(a: State, b: State, c: ClientIdx, entry: ClientPublisherMTE, merge: bool)
    requires a.p == b.p
    ensures UpdatePublishers(a, c, entry, merge).st.p == UpdatePublishers(b, c, entry, merge).st.p
    ensures UpdatePublishers(a, c, entry, merge).out == UpdatePublishers(b, c, entry, merge).out
  {}

  lemma {:induction false} PublishTables(st: State, p: PublishTopic, c: ClientIdx)
    requires Inv(st) && FreeCore(st) && Ordinary(p.name) && c in st.c.clients
    ensures var r := PublishStep(st, p, c);
      && c in r.st.c.clients && p.name in r.st.t.topicMap
      && r.st.c.clients[c].pubs.fwd == st.c.clients[c].pubs.fwd[p.pubuid := r.st.t.topicMap[p.name]]
      && if p.name in st.t.topicMap then r.st.t == st.t && r.st.counters == st.counters && r.st.p.pubCount == st.p.pubCount
         else ThreeMore(st, r.st, FromPublishTopic(p))
  {
    var topic := FromPublishTopic(p);
    hide Inv, FreeCore, Ordinary, PublishStep, SubsUntouched, SeatsUntouched;
    AddOrdinaryFree(st, topic);
    PublishTail(st, p, c);
    if p.name in st.t.topicMap {
      AddExisting(st, topic);
      hide AddTopic;
    } else {
      AddedTables(st, topic);
      hide AddTopic, ThreeMore;
      ThreeMoreSame(st, AddTopic(st, topic).st, PublishStep(st, p, c).st, topic);
    }
  }

  lemma {:induction false} ThreeMoreSame(st: State, a: State, b: State, topic: Topic)
    requires ThreeMore(st, a, topic) && b.t == a.t && b.counters == a.counters
    ensures ThreeMore(st, b, topic)
  {}

  lemma {:induction false} AddedTables(st: State, topic: Topic)
    requires FreeCore(st) && Ordinary(topic.name) && topic.name !in st.t.topicMap
    ensures var r := AddTopic(st, topic);
      && r.out == Ok(st.counters.topicIdx) && ThreeMore(st, r.st, topic)
      && topic.name in r.st.t.topicMap && r.st.t.topicMap[topic.name] == st.counters.topicIdx
  {
    TogetherIn(st, topic.name);
    hide FreeCore, Ordinary, PubMeta, SubMeta, SubsUntouched, SeatsUntouched;
    AddOrdinaryExact(st, topic);
    TrioThreeMore(st, topic);
    hide AddTopic, Trio;
    ThreeMoreSame(st, Trio(st, topic), AddTopic(st, topic).st, topic);
    MetaNames(topic.name);
  }

  /** Publishing an ordinary name succeeds for every connected client and for nobody else. It leads the client's pubuid to the
      topic of that name: the one in use, whose tables and count stay as they are, or a new one, made of exactly three ids. */
  lemma {:induction false} PublishSucceeds(states: seq<State>, ops: seq<Op>, j: nat, p: PublishTopic, c: ClientIdx)
    requires IsFreeRun(states, ops) && j <= |ops| && Ordinary(p.name)
    ensures var st, r := states[j], PublishStep(states[j], p, c);
      && (r.out.Ok? <==> c in st.c.clients)
      && (c in st.c.clients ==>
            && c in r.st.c.clients && p.name in r.st.t.topicMap
            && r.st.c.clients[c].pubs.fwd == st.c.clients[c].pubs.fwd[p.pubuid := r.st.t.topicMap[p.name]]
            && if p.name in st.t.topicMap then r.st.t == st.t && r.st.counters == st.counters && r.st.p.pubCount == st.p.pubCount
               else ThreeMore(st, r.st, FromPublishTopic(p)))
  {
    hide Init, Step, Enabled, Inv, FreeCore, Ordinary, PublishStep, ThreeMore;
    FreeState(states, ops, j);
    PublishFree(states[j], p, c);
    if c in states[j].c.clients {
      PublishTables(states[j], p, c);
    }
  }

  // ---- removing ----

  /** Removing a live ordinary topic always succeeds and takes exactly three topics, under their three names. */
  lemma {:induction false} RemoveSucceeds(states: seq<State>, ops: seq<Op>, j: nat, i: TopicIdx)
    requires IsFreeRun(states, ops) && j <= |ops| && i in states[j].t.topics && Ordinary(states[j].t.topics[i].name)
    ensures var t, name, r := states[j].t, states[j].t.topics[i].name, RemoveTopic(states[j], i);
      && r.out.Ok?
      && PubMeta(name) in t.topicMap && SubMeta(name) in t.topicMap && name in t.topicMap && t.topicMap[name] == i
      && var p, s := t.topicMap[PubMeta(name)], t.topicMap[SubMeta(name)];
      && |{i, p, s}| == 3 && {i, p, s} <= t.topics.Keys
      && r.st.t == TopicTables(t.topics - {i, p, s}, t.topicMap - {PubMeta(name), SubMeta(name), name}, t.topicSubs - {i, p, s}, t.topicValues - {i})
  {
    hide Init, Step, Enabled, Inv, FreeCore, Ordinary;
    FreeState(states, ops, j);
    RemoveIn(states[j], i);
    hide Removed, PubMeta, SubMeta;
  }

  lemma {:induction false} RemoveIn(st: State, i: TopicIdx)
    requires Inv(st) && FreeCore(st) && i in st.t.topics && Ordinary(st.t.topics[i].name)
    ensures var t, name := st.t, st.t.topics[i].name;
      && PubMeta(name) in t.topicMap && SubMeta(name) in t.topicMap && name in t.topicMap && t.topicMap[name] == i
      && var p, s := t.topicMap[PubMeta(name)], t.topicMap[SubMeta(name)];
      && p in t.topics && s in t.topics && p != i && s != i && p != s
      && Removed(t, i) == (TopicTables(t.topics - {i, p, s}, t.topicMap - {PubMeta(name), SubMeta(name), name}, t.topicSubs - {i, p, s}, t.topicValues - {i}), Some((p, s)))
  {
    RemoveOrdinaryExact(st.t, st.tlog, st.counters.topicIdx, i);
    hide Removed, PubMeta, SubMeta, TopicInv, ClientInv, IndexInv, SubInv, MailInv, Lifetimes, Serviced, KeptNames, Plain, Shaped, InLockstep, Alive, Ordinary;
  }

  // ---- caches ----

  /** The cached values are those of the live ordinary topics that accepted one. */
  lemma {:induction false} CachedTopics(states: seq<State>, ops: seq<Op>, j: nat, i: TopicIdx)
    requires IsFreeRun(states, ops) && j <= |ops|
    ensures var t := states[j].t;
      i in t.topicValues <==> i in t.topics && Ordinary(t.topics[i].name) && AcceptedIn(states, ops, i, 0, j) != []
  {
    hide Inv, Init, Step, Enabled, FreeCore, Newest, AcceptedIn, Ordinary;
    FreeState(states, ops, j);
    var t := states[j].t;
    CachedIsLive(states[j], i);
    if i in t.topics {
      LiveCache(states, ops, j, i);
      NewestOfNone(AcceptedIn(states, ops, i, 0, j));
    }
  }

  lemma {:induction false} CachedIsLive(st: State, i: TopicIdx)
    requires Inv(st) && FreeCore(st)
    ensures i in st.t.topicValues ==> i in st.t.topics && Ordinary(st.t.topics[i].name)
  {
    assert i in st.t.topicValues ==> i in st.t.topics by { hide Inv, Lifetimes, Serviced, KeptNames, Plain, Shaped, InLockstep; }
    LiveIsNamed(st, i);
    if i in st.t.topics && !Ordinary(st.tlog.names[i]) {
      MetaUncached(st.t, st.tlog, st.counters.topicIdx, i);
    }
    hide Inv, FreeCore, Ordinary;
  }
}
