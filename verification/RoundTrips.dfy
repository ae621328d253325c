/** Publishing a new topic, setting values on it and unpublishing it again leaves no trace. */
module RoundTrips {
  import opened Basics
  import opened BiMap
  import opened Protocol
  import opened MetaTopic
  import opened SubValue
  import opened ServerModel
  import opened Invariants
  import opened TopicSteps
  import opened ClientSteps
  import opened ValueSteps
  import opened Handlers
  import opened Lockstep
  import opened FreeRuns
  import opened Growth
  import opened TopicLives
  import opened OrdinaryTopics

  // ---- values in between ----

  /** The state after these values were set on a topic, one after the other. */
  function SetValues(st: State, vs: seq<TimestampedValue>, i: TopicIdx): State {
    if vs == [] then st else SetValueStep(SetValues(st, vs[..|vs| - 1], i), vs[|vs| - 1], i).st
  }

  /** Nothing changed but the values of one topic. */
  ghost predicate OnlyValues(st: State, st': State, i: TopicIdx) {
    && st'.t.topics == st.t.topics && st'.t.topicMap == st.t.topicMap && st'.t.topicSubs == st.t.topicSubs
    && st'.t.topicValues - {i} == st.t.topicValues - {i}
    && st'.p == st.p && st'.c == st.c && st'.counters == st.counters
  }

  lemma {:induction false} SetOneValue(st: State, v: TimestampedValue, i: TopicIdx)
    ensures OnlyValues(st, SetValueStep(st, v, i).st, i)
  {
    hide Queued, Append, Replace;
  }

  lemma {:induction false} SetValuesOnly(st: State, vs: seq<TimestampedValue>, i: TopicIdx)
    requires Inv(st) && FreeInv(st)
    ensures var st' := SetValues(st, vs, i); OnlyValues(st, st', i) && Inv(st') && FreeInv(st')
  {
    hide Inv, FreeInv, SetValueStep;
    if vs != [] {
      var before, v := SetValues(st, vs[..|vs| - 1], i), vs[|vs| - 1];
      SetValuesOnly(st, vs[..|vs| - 1], i);
      SetOneValue(before, v, i);
      SetValueInv(before, v, i);
      SetValueSameNames(before, v, i);
      SameNamesFree(before, SetValueStep(before, v, i).st);
    }
    hide SameNames;
  }

  // ---- the publisher list ----

  /** The list of publishers kept for a client. */
  function PublisherList(p: PubTables, c: ClientIdx): MetaTopicValue {
    if c == SERVER_CLIENT_IDX then GetOr(p.metaValues, SERVER_PUB_METATOPIC, ServerPublisher([]))
    else if c in p.clientMetatopics then GetOr(p.metaValues, p.clientMetatopics[c].0, ClientPublisher([]))
    else ClientPublisher([])
  }

  predicate Lists(list: MetaTopicValue, entry: ClientPublisherMTE) {
    !list.Client? && entry in list.pubs
  }

  function One(c: ClientIdx, entry: ClientPublisherMTE): MetaTopicValue {
    if c == SERVER_CLIENT_IDX then ServerPublisher([entry]) else ClientPublisher([entry])
  }

  lemma {:induction false} MergedThenReduced(list: MetaTopicValue, c: ClientIdx, entry: ClientPublisherMTE)
    requires !Lists(list, entry)
    ensures list.Merge(One(c, entry)).Reduce(One(c, entry)) == list
  {
    if !list.Client? {
      MergeReduce(list.pubs, entry);
    }
    hide Without;
  }

  lemma {:induction false} UpdatedList(st: State, c: ClientIdx, entry: ClientPublisherMTE, merge: bool)
    requires c == SERVER_CLIENT_IDX || c in st.p.clientMetatopics
    ensures var r, list := UpdatePublishers(st, c, entry, merge), PublisherList(st.p, c);
      && r.out.Ok? && r.st.p.clientMetatopics == st.p.clientMetatopics && r.st.p.pubCount == st.p.pubCount
      && r.st == st.(p := r.st.p)
      && PublisherList(r.st.p, c) == if merge then list.Merge(One(c, entry)) else list.Reduce(One(c, entry))
  {}

  lemma {:induction false} ListFrame(p: PubTables, p': PubTables, c: ClientIdx, gone: set<TopicIdx>)
    requires p'.clientMetatopics == p.clientMetatopics && p'.metaValues == p.metaValues - gone
    requires SERVER_PUB_METATOPIC !in gone && (c in p.clientMetatopics ==> p.clientMetatopics[c].0 !in gone)
    ensures PublisherList(p', c) == PublisherList(p, c)
  {}

  // ---- after the publish ----

  /** What is known between the publish and the unpublish. */
  ghost predicate Published(st: State, st': State, p: PublishTopic, c: ClientIdx)
    requires c in st.c.clients
  {
    var i := st.counters.topicIdx;
    && ThreeMore(st, st', FromPublishTopic(p))
    && i in st'.p.pubCount && st'.p.pubCount[i] == 1
    && c in st'.c.clients && st'.c.clients[c].pubs.fwd == st.c.clients[c].pubs.fwd[p.pubuid := i]
    && st'.p.clientMetatopics == st.p.clientMetatopics
    && PublisherList(st'.p, c) == PublisherList(st.p, c).Merge(One(c, ClientPublisherMTE(p.name, p.pubuid)))
  }

  lemma {:induction false} NewPubs(st: State, topic: Topic)
    requires Inv(st) && FreeCore(st) && Ordinary(topic.name) && topic.name !in st.t.topicMap && !topic.HasImplicitPublisher()
    ensures var r, i := AddTopic(st, topic), st.counters.topicIdx;
      && r.st.p.metaValues == st.p.metaValues && r.st.p.clientMetatopics == st.p.clientMetatopics
      && i in r.st.p.pubCount && r.st.p.pubCount[i] == 1
      && r.out == Ok(i) && i in r.st.t.topics && SamePubs(st.c, r.st.c)
  {
    TogetherIn(st, topic.name);
    hide Inv, FreeCore, Ordinary, PubMeta, SubMeta, SubsUntouched, SeatsUntouched;
    AddNewFree(st, topic);
    AddOrdinaryExact(st, topic);
    TrioPubs(st, topic);
    hide AddTopic, Trio, SamePubs;
  }

  lemma {:induction false} SameList(p: PubTables, p': PubTables, c: ClientIdx)
    requires p'.metaValues == p.metaValues && p'.clientMetatopics == p.clientMetatopics
    ensures PublisherList(p', c) == PublisherList(p, c)
  {}

  lemma {:induction false} PublishNewTopic(st: State, p: PublishTopic, c: ClientIdx)
    requires Inv(st) && FreeInv(st) && Ordinary(p.name) && p.name !in st.t.topicMap && !FromPublishTopic(p).HasImplicitPublisher()
    requires c in st.c.clients
    ensures var r := PublishStep(st, p, c); r.out.Ok? && Published(st, r.st, p, c)
  {
    var topic := FromPublishTopic(p);
    var entry := ClientPublisherMTE(p.name, p.pubuid);
    hide Inv, FreeCore, Ordinary, PublishStep, SubsUntouched, SeatsUntouched, ThreeMore;
    PublishFree(st, p, c);
    PublishTables(st, p, c);
    NewPubs(st, topic);
    PublishTail(st, p, c);
    var a := AddTopic(st, topic);
    hide AddTopic, SamePubs, PublisherList, UpdatePublishers, Topic.HasImplicitPublisher;
    UpdatedList(a.st, c, entry, true);
    SameList(st.p, a.st.p, c);
    NewTopicIdx(st, PublishStep(st, p, c).st, topic);
  }

  lemma {:induction false} NewTopicIdx(st: State, st': State, topic: Topic)
    requires ThreeMore(st, st', topic)
    ensures topic.name in st'.t.topicMap && st'.t.topicMap[topic.name] == st.counters.topicIdx
  {
    MetaNames(topic.name);
    hide PubMeta, SubMeta;
  }

  // ---- the last release ----

  /** Between publish and unpublish: the old tables, one topic with two metatopics, and perhaps a value. */
  ghost predicate Extended(t: TopicTables, t': TopicTables, i: TopicIdx, name: string) {
    && t'.topics.Keys == t.topics.Keys + {i, i + 1, i + 2} && t'.topics - {i, i + 1, i + 2} == t.topics
    && t'.topics[i].name == name
    && t'.topicMap == t.topicMap[name := i][PubMeta(name) := i + 1][SubMeta(name) := i + 2]
    && t'.topicSubs - {i, i + 1, i + 2} == t.topicSubs
    && t'.topicValues - {i} == t.topicValues
  }

  lemma {:induction false} BelowNew(st: State)
    requires Inv(st)
    ensures forall i | i in st.t.topics || i in st.t.topicSubs || i in st.t.topicValues :: i < st.counters.topicIdx
  {
    hide Cached, ClientInv, IndexInv, SubInv, MailInv, MapNamed;
  }

  lemma {:induction false} ExtendedTables(st: State, st': State, topic: Topic)
    requires ThreeMore(st, st', topic)
    requires forall i | i in st.t.topics || i in st.t.topicSubs || i in st.t.topicValues :: i < st.counters.topicIdx
    ensures Extended(st.t, st'.t, st.counters.topicIdx, topic.name)
  {
    hide PubMeta, SubMeta;
  }

  lemma {:induction false} ExtendedByValues(st: State, a: State, b: State, i: TopicIdx, name: string)
    requires Extended(st.t, a.t, i, name) && OnlyValues(a, b, i)
    ensures Extended(st.t, b.t, i, name)
  {
    hide PubMeta, SubMeta;
  }

  lemma {:induction false} NamesBack(topicMap: map<string, TopicIdx>, name: string, i: TopicIdx)
    requires name !in topicMap && PubMeta(name) !in topicMap && SubMeta(name) !in topicMap
    ensures topicMap[name := i][PubMeta(name) := i + 1][SubMeta(name) := i + 2] - {PubMeta(name), SubMeta(name), name} == topicMap
  {
    hide PubMeta, SubMeta;
  }

  lemma {:induction false} RemovedBack(t: TopicTables, t': TopicTables, i: TopicIdx, name: string, r: TopicTables)
    requires Extended(t, t', i, name) && name !in t.topicMap && PubMeta(name) !in t.topicMap && SubMeta(name) !in t.topicMap
    requires r == TopicTables(t'.topics - {i, i + 1, i + 2}, t'.topicMap - {PubMeta(name), SubMeta(name), name}, t'.topicSubs - {i, i + 1, i + 2}, t'.topicValues - {i})
    ensures r == t
  {
    NamesBack(t.topicMap, name, i);
    hide PubMeta, SubMeta;
  }

  lemma {:induction false} MetaIds(t: TopicTables, t': TopicTables, i: TopicIdx, name: string)
    requires Extended(t, t', i, name)
    ensures i in t'.topics && PubMeta(name) in t'.topicMap && SubMeta(name) in t'.topicMap
    ensures t'.topicMap[PubMeta(name)] == i + 1 && t'.topicMap[SubMeta(name)] == i + 2
  {
    MetaInjective(name, name);
    hide PubMeta, SubMeta;
  }

  lemma {:induction false} RemovedAgain(st: State, m: State, i: TopicIdx, name: string)
    requires Inv(m) && FreeCore(m) && Ordinary(name) && Extended(st.t, m.t, i, name)
    requires name !in st.t.topicMap && PubMeta(name) !in st.t.topicMap && SubMeta(name) !in st.t.topicMap
    ensures Removed(m.t, i) == (st.t, Some((i + 1, i + 2)))
  {
    hide Inv, FreeCore, Ordinary, PubMeta, SubMeta, Removed;
    MetaIds(st.t, m.t, i, name);
    NamedSo(st.t, m.t, i, name);
    RemoveIn(m, i);
    hide Extended;
    RemovedBack(st.t, m.t, i, name, Removed(m.t, i).0);
  }

  lemma {:induction false} NamedSo(t: TopicTables, t': TopicTables, i: TopicIdx, name: string)
    requires Extended(t, t', i, name)
    ensures i in t'.topics && t'.topics[i].name == name
  {}

  /** The only release of the new topic brings the tables back. */
  lemma {:induction false} ReleaseBack(st: State, m: State, i: TopicIdx)
    requires Removed(m.t, i) == (st.t, Some((i + 1, i + 2))) && i in m.p.pubCount && m.p.pubCount[i] == 1
    ensures var r := Release(m, i);
      && r.out.Ok? && r.st.t == st.t && r.st.c == m.c
      && i in r.st.p.pubCount && r.st.p.clientMetatopics == m.p.clientMetatopics && r.st.p.metaValues == m.p.metaValues - {i + 1, i + 2}
  {
    DecrementLive(m, i);
    hide Removed, Decrement, Bump, SubsUntouched, SeatsUntouched;
  }

  // ---- there and back ----

  lemma {:induction false} UnpublishLast(m: State, p: PublishTopic, c: ClientIdx, i: TopicIdx)
    requires c in m.c.clients && p.pubuid in m.c.clients[c].pubs.fwd && m.c.clients[c].pubs.fwd[p.pubuid] == i
    requires i in m.t.topics && m.t.topics[i].name == p.name && i in m.p.pubCount
    requires c == SERVER_CLIENT_IDX || c in m.p.clientMetatopics
    requires var r := Release(UnbindPub(m, c, p.pubuid), i); r.out.Ok? && r.st.p.clientMetatopics == m.p.clientMetatopics && r.st.c == UnbindPub(m, c, p.pubuid).c
    ensures var r, q := Release(UnbindPub(m, c, p.pubuid), i).st, UnpublishStep(m, p.pubuid, c);
      && q.out.Ok? && q.st.t == r.t
      && c in q.st.c.clients && q.st.c.clients[c].pubs.fwd == m.c.clients[c].pubs.fwd - {p.pubuid}
      && PublisherList(q.st.p, c) == PublisherList(r.p, c).Reduce(One(c, ClientPublisherMTE(p.name, p.pubuid)))
  {
    var st1 := UnbindPub(m, c, p.pubuid);
    assert st1.p == m.p && st1.t == m.t && c in st1.c.clients && st1.c.clients[c].pubs.fwd == m.c.clients[c].pubs.fwd - {p.pubuid};
    var r := Release(st1, i).st;
    DropKeepsList(r, i, c);
    hide UnbindPub, Release, DropCount, UpdatePublishers, PublisherList, SubsUntouched, SeatsUntouched;
    UpdatedList(DropCount(r, i), c, ClientPublisherMTE(p.name, p.pubuid), false);
  }

  lemma {:induction false} DropKeepsList(st: State, i: TopicIdx, c: ClientIdx)
    ensures var r := DropCount(st, i);
      r.t == st.t && r.c == st.c && r.p.clientMetatopics == st.p.clientMetatopics && PublisherList(r.p, c) == PublisherList(st.p, c)
  {}

  /** The list ids of clients are older than the new topic. */
  lemma {:induction false} ListIdsOld(st: State, c: ClientIdx)
    requires FreeCore(st) && Inv(st)
    ensures c in st.p.clientMetatopics ==> st.p.clientMetatopics[c].0 < st.counters.topicIdx
  {
    CountersAreSizes(st);
    hide Inv, Shaped, InLockstep, Alive, Lifetimes, KeptNames, Plain, IsClientPub, IsClientSub;
  }

  /** The state in which the unpublish finds the server. */
  ghost predicate Between(st: State, m: State, p: PublishTopic, c: ClientIdx) {
    var i := st.counters.topicIdx;
    && Extended(st.t, m.t, i, p.name)
    && i in m.p.pubCount && m.p.pubCount[i] == 1
    && c in st.c.clients && p.pubuid !in st.c.clients[c].pubs.fwd
    && c in m.c.clients && m.c.clients[c].pubs.fwd == st.c.clients[c].pubs.fwd[p.pubuid := i]
    && m.p.clientMetatopics == st.p.clientMetatopics
    && PublisherList(m.p, c) == PublisherList(st.p, c).Merge(One(c, ClientPublisherMTE(p.name, p.pubuid)))
  }

  lemma {:induction false} InBetween(st: State, p: PublishTopic, c: ClientIdx, vs: seq<TimestampedValue>)
    requires Inv(st) && FreeInv(st) && Ordinary(p.name) && p.name !in st.t.topicMap && !FromPublishTopic(p).HasImplicitPublisher()
    requires c in st.c.clients && p.pubuid !in st.c.clients[c].pubs.fwd
    ensures var m := SetValues(PublishStep(st, p, c).st, vs, st.counters.topicIdx);
      PublishStep(st, p, c).out.Ok? && Inv(m) && FreeInv(m) && Between(st, m, p, c)
  {
    var i, r := st.counters.topicIdx, PublishStep(st, p, c).st;
    hide Inv, FreeCore, Ordinary, PublishStep, SubsUntouched, Extended, PublisherList, SetValues, ThreeMore;
    PublishNewTopic(st, p, c);
    PublishInv(st, p, c);
    PublishFree(st, p, c);
    BelowNew(st);
    ExtendedTables(st, r, FromPublishTopic(p));
    SetValuesOnly(r, vs, i);
    ExtendedByValues(st, r, SetValues(r, vs, i), i, p.name);
  }

  /** The tables of `st` are back, and the publisher list had the pair merged in and taken out. */
  ghost predicate Restored(st: State, q: Result<()>, p: PublishTopic, c: ClientIdx) {
    var entry := ClientPublisherMTE(p.name, p.pubuid);
    && q.out.Ok? && q.st.t == st.t
    && c in st.c.clients && c in q.st.c.clients && q.st.c.clients[c].pubs.fwd == st.c.clients[c].pubs.fwd
    && PublisherList(q.st.p, c) == PublisherList(st.p, c).Merge(One(c, entry)).Reduce(One(c, entry))
  }

  ghost predicate ReleasedTo(st: State, m: State, p: PublishTopic, c: ClientIdx) {
    && c in m.c.clients && st.counters.topicIdx in m.p.pubCount && UnbindPub(m, c, p.pubuid).p == m.p
    && var m1 := UnbindPub(m, c, p.pubuid);
    && var r := Release(m1, st.counters.topicIdx);
    && r.out.Ok? && r.st.t == st.t && r.st.c == m1.c && r.st.p.clientMetatopics == m.p.clientMetatopics
    && PublisherList(r.st.p, c) == PublisherList(m.p, c)
  }

  /** From there, the unpublish leads back. */
  lemma {:induction false} Back(st: State, m: State, p: PublishTopic, c: ClientIdx)
    requires Between(st, m, p, c) && ReleasedTo(st, m, p, c)
    requires c == SERVER_CLIENT_IDX || c in m.p.clientMetatopics
    ensures Restored(st, UnpublishStep(m, p.pubuid, c), p, c)
  {
    hide UnpublishStep, SubsUntouched, SeatsUntouched, Extended, PublisherList, Release, UnbindPub, MetaTopicValue.Merge, MetaTopicValue.Reduce;
    var i := st.counters.topicIdx;
    NamedSo(st.t, m.t, i, p.name);
    UnpublishLast(m, p, c, i);
    assert st.c.clients[c].pubs.fwd[p.pubuid := i] - {p.pubuid} == st.c.clients[c].pubs.fwd;
  }

  lemma {:induction false} FreeEquipped(st: State, c: ClientIdx)
    requires FreeInv(st) && c in st.c.clients
    ensures c == SERVER_CLIENT_IDX || c in st.p.clientMetatopics
  {
    hide FreeCore;
  }

  lemma {:induction false} FreeCores(st: State, m: State)
    requires FreeInv(st) && FreeInv(m)
    ensures FreeCore(st) && FreeCore(m)
  {
    hide FreeCore, Equipped;
  }

  lemma {:induction false} BetweenConnected(st: State, m: State, p: PublishTopic, c: ClientIdx)
    requires Between(st, m, p, c)
    ensures c in m.c.clients
  {}

  lemma {:induction false} RemovedBetween(st: State, m: State, p: PublishTopic, c: ClientIdx)
    requires FreeCore(st) && Ordinary(p.name) && p.name !in st.t.topicMap
    requires Inv(m) && FreeCore(m) && Between(st, m, p, c)
    ensures var i := st.counters.topicIdx; Removed(m.t, i) == (st.t, Some((i + 1, i + 2)))
  {
    assert Extended(st.t, m.t, st.counters.topicIdx, p.name) by { hide Extended, PublisherList, Inv, FreeCore; }
    hide Inv, FreeCore, Ordinary, Extended, Between, PubMeta, SubMeta, Removed;
    TogetherIn(st, p.name);
    RemovedAgain(st, m, st.counters.topicIdx, p.name);
  }

  lemma {:induction false} ReleasedBetween(st: State, m: State, p: PublishTopic, c: ClientIdx)
    requires Between(st, m, p, c) && st.counters.topicIdx > SERVER_PUB_METATOPIC
    requires c in st.p.clientMetatopics ==> st.p.clientMetatopics[c].0 < st.counters.topicIdx
    requires var i := st.counters.topicIdx; Removed(m.t, i) == (st.t, Some((i + 1, i + 2)))
    ensures ReleasedTo(st, m, p, c)
  {
    hide SubsUntouched, SeatsUntouched, Extended, PublisherList, Release, MetaTopicValue.Merge, Removed;
    var i, m1 := st.counters.topicIdx, UnbindPub(m, c, p.pubuid);
    UnbindPubFrame(m, c, p.pubuid);
    hide UnbindPub;
    ReleaseBack(st, m1, i);
    ListFrame(m.p, Release(m1, i).st.p, c, {i + 1, i + 2});
  }

  /** Publishing a new, ordinary, neither retained nor persistent name under an unused pubuid, setting any values on it and
      unpublishing it restores all topic tables, the client's pubuids and, unless it named this pair before, its publisher list. */
  lemma {:induction false} PublishUnpublish(st: State, p: PublishTopic, c: ClientIdx, vs: seq<TimestampedValue>)
    requires Inv(st) && FreeInv(st) && st.counters.topicIdx > SERVER_PUB_METATOPIC
    requires Ordinary(p.name) && p.name !in st.t.topicMap && !FromPublishTopic(p).HasImplicitPublisher()
    requires c in st.c.clients && p.pubuid !in st.c.clients[c].pubs.fwd
    ensures var r := PublishStep(st, p, c);
      var q := UnpublishStep(SetValues(r.st, vs, st.counters.topicIdx), p.pubuid, c);
      && r.out.Ok? && q.out.Ok? && q.st.t == st.t
      && c in q.st.c.clients && q.st.c.clients[c].pubs.fwd == st.c.clients[c].pubs.fwd
      && (!Lists(PublisherList(st.p, c), ClientPublisherMTE(p.name, p.pubuid)) ==> PublisherList(q.st.p, c) == PublisherList(st.p, c))
  {
    hide Inv, FreeInv, Ordinary, PublishStep, UnpublishStep, SubsUntouched, SeatsUntouched, Between, PublisherList, SetValues, Lists, MetaTopicValue.Merge, MetaTopicValue.Reduce, Removed, FreeCore;
    InBetween(st, p, c, vs);
    var m := SetValues(PublishStep(st, p, c).st, vs, st.counters.topicIdx);
    FreeCores(st, m);
    RemovedBetween(st, m, p, c);
    ListIdsOld(st, c);
    ReleasedBetween(st, m, p, c);
    BetweenConnected(st, m, p, c);
    FreeEquipped(m, c);
    Back(st, m, p, c);
    hide ReleasedTo;
    if !Lists(PublisherList(st.p, c), ClientPublisherMTE(p.name, p.pubuid)) {
      MergedThenReduced(PublisherList(st.p, c), c, ClientPublisherMTE(p.name, p.pubuid));
    }
  }

  // ---- publisher counts ----

  lemma {:induction false} TrioCounts(st: State, topic: Topic)
    ensures var i, k := st.counters.topicIdx, if topic.HasImplicitPublisher() then 2 else 1;
      Trio(st, topic).p.pubCount == st.p.pubCount[i := k][i + 1 := 1][i + 2 := 1]
  {
    hide SubsUntouched, SeatsUntouched, PubMeta, SubMeta;
  }

  lemma {:induction false} PublishCounts(st: State, p: PublishTopic, c: ClientIdx)
    requires Inv(st) && FreeCore(st) && Ordinary(p.name) && p.name !in st.t.topicMap && !FromPublishTopic(p).HasImplicitPublisher()
    ensures var i := st.counters.topicIdx; PublishStep(st, p, c).st.p.pubCount == st.p.pubCount[i := 1][i + 1 := 1][i + 2 := 1]
  {
    TogetherIn(st, p.name);
    hide Inv, FreeCore, Ordinary, PublishStep, PubMeta, SubMeta, SubsUntouched, SeatsUntouched;
    AddOrdinaryExact(st, FromPublishTopic(p));
    TrioCounts(st, FromPublishTopic(p));
    PublishLog(st, p, c);
    hide AddTopic, Trio, SamePubs;
  }

  lemma {:induction false} ReleaseCount(st: State, i: TopicIdx)
    requires i in st.p.pubCount && st.p.pubCount[i] == 1
    ensures Release(st, i).st.p.pubCount == st.p.pubCount[i := 0]
  {
    hide Removed, Bump, SubsUntouched, SeatsUntouched;
  }

  lemma {:induction false} UnpublishCounts(st: State, pubuid: PubUID, c: ClientIdx, i: TopicIdx)
    requires c in st.c.clients && pubuid in st.c.clients[c].pubs.fwd && st.c.clients[c].pubs.fwd[pubuid] == i
    requires i in st.p.pubCount && st.p.pubCount[i] == 1 && UnpublishStep(st, pubuid, c).out.Ok?
    ensures UnpublishStep(st, pubuid, c).st.p.pubCount == st.p.pubCount - {i}
  {
    hide Release, UpdatePublishers, SubsUntouched, SeatsUntouched;
    var st1 := UnbindPub(st, c, pubuid);
    ReleaseCount(st1, i);
    var name := if i in st.t.topics then st.t.topics[i].name else "";
    UpdateRest(DropCount(Release(st1, i).st, i), c, ClientPublisherMTE(name, pubuid), false);
    assert st.p.pubCount[i := 0] - {i} == st.p.pubCount - {i};
  }

  lemma {:induction false} CountsAreOld(st: State)
    requires Inv(st) && FreeCore(st)
    ensures forall i | i in st.p.pubCount :: i < st.counters.topicIdx
  {
    CountersAreSizes(st);
    hide Inv, Shaped, InLockstep, Alive, Serviced, KeptNames, Plain, Ordinary;
  }

  lemma {:induction false} BetweenHolds(st: State, m: State, p: PublishTopic, c: ClientIdx)
    requires Between(st, m, p, c)
    ensures var i := st.counters.topicIdx;
      c in m.c.clients && p.pubuid in m.c.clients[c].pubs.fwd && m.c.clients[c].pubs.fwd[p.pubuid] == i && i in m.p.pubCount && m.p.pubCount[i] == 1
  {
    hide Extended, PublisherList;
  }

  /** The counts that are left: those from before, and one for each of the two metatopics, which are gone. */
  lemma {:induction false} CountsLeft(st: State, p: PublishTopic, c: ClientIdx, vs: seq<TimestampedValue>)
    requires Inv(st) && FreeInv(st)
    requires Ordinary(p.name) && p.name !in st.t.topicMap && !FromPublishTopic(p).HasImplicitPublisher()
    requires c in st.c.clients && p.pubuid !in st.c.clients[c].pubs.fwd
    requires UnpublishStep(SetValues(PublishStep(st, p, c).st, vs, st.counters.topicIdx), p.pubuid, c).out.Ok?
    ensures var i, q := st.counters.topicIdx, UnpublishStep(SetValues(PublishStep(st, p, c).st, vs, st.counters.topicIdx), p.pubuid, c);
      && i + 1 !in st.p.pubCount && i + 2 !in st.p.pubCount
      && q.st.p.pubCount == st.p.pubCount[i + 1 := 1][i + 2 := 1]
  {
    hide Inv, FreeCore, Ordinary, PublishStep, UnpublishStep, SetValues, Between, Topic.HasImplicitPublisher, SubsUntouched, SeatsUntouched;
    var i, r := st.counters.topicIdx, PublishStep(st, p, c).st;
    InBetween(st, p, c, vs);
    var m := SetValues(r, vs, i);
    BetweenHolds(st, m, p, c);
    PublishCounts(st, p, c);
    PublishInv(st, p, c);
    PublishFree(st, p, c);
    SetValuesOnly(r, vs, i);
    UnpublishCounts(m, p.pubuid, c, i);
    CountsAreOld(st);
    assert st.p.pubCount[i := 1][i + 1 := 1][i + 2 := 1] - {i} == st.p.pubCount[i + 1 := 1][i + 2 := 1];
  }

  /** So it is at any point of any run that publishes ordinary names; the publisher counts gain one entry for each of the two
      metatopics, and keep it. */
  lemma {:induction false} NoTrace(states: seq<State>, ops: seq<Op>, j: nat, p: PublishTopic, c: ClientIdx, vs: seq<TimestampedValue>)
    requires IsFreeRun(states, ops) && j <= |ops|
    requires Ordinary(p.name) && p.name !in states[j].t.topicMap && !FromPublishTopic(p).HasImplicitPublisher()
    requires c in states[j].c.clients && p.pubuid !in states[j].c.clients[c].pubs.fwd
    ensures var st := states[j];
      var r := PublishStep(st, p, c);
      var q := UnpublishStep(SetValues(r.st, vs, st.counters.topicIdx), p.pubuid, c);
      && r.out.Ok? && q.out.Ok? && q.st.t == st.t
      && c in q.st.c.clients && q.st.c.clients[c].pubs.fwd == st.c.clients[c].pubs.fwd
      && (!Lists(PublisherList(st.p, c), ClientPublisherMTE(p.name, p.pubuid)) ==> PublisherList(q.st.p, c) == PublisherList(st.p, c))
      && var i := st.counters.topicIdx;
      && i + 1 !in st.p.pubCount && i + 2 !in st.p.pubCount
      && q.st.p.pubCount == st.p.pubCount[i + 1 := 1][i + 2 := 1]
  {
    hide Init, Step, Enabled, Inv, FreeInv, Ordinary, PublishStep, UnpublishStep, SetValues, PublisherList, Lists, FromPublishTopic;
    FreeState(states, ops, j);
    ThreeAtLeast(states, ops, j);
    PublishUnpublish(states[j], p, c, vs);
    CountsLeft(states[j], p, c, vs);
  }

  lemma {:induction false} ThreeAtLeast(states: seq<State>, ops: seq<Op>, j: nat)
    requires IsRun(states, ops) && j <= |ops|
    ensures states[j].counters.topicIdx >= 3
  {
    hide Step, Enabled, Init;
    var checks :| states[0] == Init(checks);
    InitCounters(checks);
    RunLater(states, ops, 0, j);
  }

  lemma {:induction false} InitCounters(checks: bool)
    ensures Init(checks).counters.topicIdx == 3
  {}
}
