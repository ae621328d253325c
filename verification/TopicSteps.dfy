/** Adding to and removing from the topic tables keeps the invariant. */
module TopicSteps {
  import opened Basics
  import opened Protocol
  import opened SubValue
  import opened ServerModel
  import opened Mailbox
  import opened Invariants

  // ---- allocating a topic ----

  /** No earlier subscription knows the next topic id. */
  lemma {:induction false} FreshTopic(births: map<SubIdx, Birth>, accepted: seq<seq<TimestampedValue>>, n: nat)
    requires BirthsOk(births, accepted) && n == |accepted|
    ensures forall s | s in births :: n !in births[s].listed && |births[s].seen| <= n
  {
    forall s | s in births ensures n !in births[s].listed && |births[s].seen| <= n {
      assert BirthOk(births[s], accepted);
    }
  }

  lemma {:induction false} AllocTopicInv(st: State, topic: Topic)
    requires TopicInv(st.t, st.tlog, st.counters.topicIdx)
    ensures var r := Alloc(st, topic); TopicInv(r.t, r.tlog, r.counters.topicIdx)
  {}

  lemma {:induction false} BirthsOkLater(births: map<SubIdx, Birth>, accepted: seq<seq<TimestampedValue>>)
    requires BirthsOk(births, accepted)
    ensures BirthsOk(births, accepted + [[]])
  {
    forall s | s in births ensures BirthOk(births[s], accepted + [[]]) {
      assert BirthOk(births[s], accepted);
    }
  }

  lemma {:induction false} AllocListsExact(lists: map<TopicIdx, seq<SubIdx>>, subs: set<SubIdx>, births: map<SubIdx, Birth>, i: TopicIdx)
    requires ListsExact(lists, subs, births) && forall k | k in births :: i !in births[k].listed
    ensures ListsExact(lists[i := []], subs, births)
  {
    assert ListExact([], i, subs, births);
    hide ListExact;
  }

  lemma {:induction false} AllocMatchExact(m: map<string, TopicIdx>, name: string, i: TopicIdx,
                                           subscriptions: map<SubIdx, (Subscription, ClientIdx)>, births: map<SubIdx, Birth>)
    requires MatchExact(m, subscriptions, births)
    requires forall k | k in births :: i !in births[k].listed && |births[k].seen| <= i
    ensures MatchExact(m[name := i], subscriptions, births)
  {}

  lemma {:induction false} AllocIndexInv(st: State, topic: Topic)
    requires Sized(st.tlog, st.counters.topicIdx) && IndexInv(st.t, st.s.subscriptions, st.log.births, st.tlog)
    ensures var r := Alloc(st, topic); IndexInv(r.t, r.s.subscriptions, r.log.births, r.tlog)
  {
    var i := st.counters.topicIdx;
    FreshTopic(st.log.births, st.tlog.accepted, i);
    BirthsOkLater(st.log.births, st.tlog.accepted);
    AllocListsExact(st.t.topicSubs, st.s.subscriptions.Keys, st.log.births, i);
    AllocMatchExact(st.t.topicMap, topic.name, i, st.s.subscriptions, st.log.births);
    hide ListsExact, MatchExact, BirthsOk;
  }

  lemma {:induction false} AllocDelivered(s: SubTables, l: Log, accepted: seq<seq<TimestampedValue>>)
    requires BirthsOk(l.births, accepted) && BirthsOk(l.births, accepted + [[]])
    requires Delivered(s.subscriptions, s.subValues, l.births, l.drained, accepted)
    ensures Delivered(s.subscriptions, s.subValues, l.births, l.drained, accepted + [[]])
  {
    forall k | k in s.subscriptions && k in s.subValues && k in l.births
      ensures DeliveredTo(s.subValues[k], s.subscriptions[k].0, k, l.births[k], l.drained, accepted + [[]])
    {
      assert DeliveredTo(s.subValues[k], s.subscriptions[k].0, k, l.births[k], l.drained, accepted);
      assert BirthOk(l.births[k], accepted);
    }
  }

  lemma {:induction false} AllocRouted(clients: map<ClientIdx, ConnectedClient>, names: seq<string>, last: map<(ClientIdx, PubUID), string>, name: string)
    requires Routed(clients, names, last)
    ensures Routed(clients, names + [name], last)
  {}

  lemma {:induction false} AllocMailInv(c: ClientTables, s: SubTables, births: map<SubIdx, Birth>, topics: set<TopicIdx>, names: seq<string>, i: TopicIdx, name: string)
    requires MailInv(c, s, births, topics, names)
    requires forall k | k in births :: i !in births[k].listed
    ensures MailInv(c, s, births, topics + {i}, names + [name])
  {
    forall k | k in c.outboxes ensures Clean(c.outboxes[k], names + [name]) {
      CleanWithMoreNames(c.outboxes[k], names, [name]);
    }
  }

  lemma {:induction false} AllocOwnNames(topics: map<TopicIdx, Topic>, topicMap: map<string, TopicIdx>, i: TopicIdx, topic: Topic)
    requires OwnNames(topics, topicMap) && ('$' in topic.name || topic.name !in topicMap)
    ensures OwnNames(topics[i := topic], topicMap[topic.name := i])
  {}

  lemma {:induction false} AllocInv(st: State, topic: Topic)
    requires Inv(st) && ('$' in topic.name || topic.name !in st.t.topicMap)
    ensures Inv(Alloc(st, topic))
  {
    assert Sized(st.tlog, st.counters.topicIdx) by { hide ClientInv, IndexInv, SubInv, MailInv, MapNamed, HaveLists, Cached, TopicsNamed, OwnNames; }
    hide TopicInv, OwnNames, IndexInv, MailInv, Delivered, Tabled, BirthsOk, Routed, Owned, Seated, SubsUntouched, SeatsUntouched;
    AllocOwnNames(st.t.topics, st.t.topicMap, st.counters.topicIdx, topic);
    AllocTopicInv(st, topic);
    AllocIndexInv(st, topic);
    AllocLogs(st);
    AllocMailInv(st.c, st.s, st.log.births, st.t.topics.Keys, st.tlog.names, st.counters.topicIdx, topic.name);
    assert Alloc(st, topic).t.topics.Keys == st.t.topics.Keys + {st.counters.topicIdx};
    AllocDelivered(st.s, st.log, st.tlog.accepted);
    AllocRouted(st.c.clients, st.tlog.names, st.log.lastPublished, topic.name);
  }

  lemma {:induction false} AllocLogs(st: State)
    requires Sized(st.tlog, st.counters.topicIdx) && IndexInv(st.t, st.s.subscriptions, st.log.births, st.tlog)
    ensures BirthsOk(st.log.births, st.tlog.accepted) && BirthsOk(st.log.births, st.tlog.accepted + [[]])
    ensures forall k | k in st.log.births :: st.counters.topicIdx !in st.log.births[k].listed
  {
    hide ListsExact, MatchExact, ListedMatch, BirthsOk;
    FreshTopic(st.log.births, st.tlog.accepted, st.counters.topicIdx);
    BirthsOkLater(st.log.births, st.tlog.accepted);
  }

  // ---- removing a topic ----

  ghost predicate Submap<K, V>(small: map<K, V>, big: map<K, V>) {
    forall k | k in small :: k in big && small[k] == big[k]
  }

  lemma {:induction false} MetaNames(name: string)
    ensures '$' in PubMeta(name) && '$' in SubMeta(name)
    ensures PubMeta(name) != name && SubMeta(name) != name && PubMeta(name) != SubMeta(name)
  {
    assert PubMeta(name)[0] == '$' && PubMeta(name)[1] == 'p' && SubMeta(name)[0] == '$' && SubMeta(name)[1] == 's';
    assert |PubMeta(name)| == |SubMeta(name)| == |name| + 5;
  }

  /** The ids a complete removal takes with it: the topic's and those of its two metatopics. */
  function Gone(t: TopicTables, i: TopicIdx): set<TopicIdx> {
    match Removed(t, i).1
    case None => {}
    case Some((p, s)) => {i, p, s}
  }

  /** A complete removal leaves no name, no list and no live topic for the ids that go. */
  lemma {:induction false} RemovedOutline(t: TopicTables, i: TopicIdx, names: seq<string>)
    requires TopicsNamed(t.topics, names) && MapNamed(t.topicMap, names)
    ensures var r := Removed(t, i).0;
      && Submap(r.topics, t.topics) && Submap(r.topicMap, t.topicMap)
      && r.topicSubs == t.topicSubs - Gone(t, i) && Submap(r.topicValues, t.topicValues)
      && (forall k | k in Gone(t, i) :: k !in r.topics && k < |names|)
      && (forall n | n in r.topicMap :: r.topicMap[n] !in Gone(t, i))
  {
    hide PubMeta, SubMeta;
  }

  /** Of the cached values it takes exactly the topic's own, for metatopics have none. */
  lemma {:induction false} RemovedValues(t: TopicTables, i: TopicIdx, g: TopicLog, n: nat)
    requires TopicInv(t, g, n)
    ensures Removed(t, i).0.topicValues == t.topicValues - Gone(t, i)
  {
    hide PubMeta, SubMeta;
    if i in t.topics {
      MetaNames(t.topics[i].name);
    }
  }

  lemma {:induction false} HaveListsShrinks(t: TopicTables, t': TopicTables, gone: set<TopicIdx>, n: nat)
    requires HaveLists(t.topics, t.topicMap, t.topicValues, t.topicSubs, n)
    requires Submap(t'.topics, t.topics) && Submap(t'.topicMap, t.topicMap)
    requires t'.topicSubs == t.topicSubs - gone && t'.topicValues == t.topicValues - gone
    requires forall k | k in t'.topics :: k !in gone
    requires forall name | name in t'.topicMap :: t'.topicMap[name] !in gone
    ensures HaveLists(t'.topics, t'.topicMap, t'.topicValues, t'.topicSubs, n)
  {}

  lemma {:induction false} RemovedTopicInv(t: TopicTables, i: TopicIdx, g: TopicLog, n: nat)
    requires TopicInv(t, g, n)
    ensures TopicInv(Removed(t, i).0, g, n)
  {
    RemovedOutline(t, i, g.names);
    RemovedValues(t, i, g, n);
    hide Removed, Gone, Newest;
    HaveListsShrinks(t, Removed(t, i).0, Gone(t, i), n);
  }

  lemma {:induction false} RemovedIndexInv(t: TopicTables, t': TopicTables, gone: set<TopicIdx>, subscriptions: map<SubIdx, (Subscription, ClientIdx)>,
                                           births: map<SubIdx, Birth>, g: TopicLog)
    requires IndexInv(t, subscriptions, births, g)
    requires Submap(t'.topicMap, t.topicMap) && t'.topicSubs == t.topicSubs - gone
    ensures IndexInv(t', subscriptions, births, g)
  {
    hide ListExact;
  }

  lemma {:induction false} RemovedOwnNames(t: TopicTables, i: TopicIdx)
    requires OwnNames(t.topics, t.topicMap)
    ensures OwnNames(Removed(t, i).0.topics, Removed(t, i).0.topicMap)
  {
    hide PubMeta, SubMeta;
    if i in t.topics {
      MetaNames(t.topics[i].name);
    }
  }

  lemma {:induction false} RemoveTopicInv(st: State, i: TopicIdx)
    requires Inv(st)
    ensures Inv(RemoveTopic(st, i).st)
  {
    RemovedOutline(st.t, i, st.tlog.names);
    RemovedTopicInv(st.t, i, st.tlog, st.counters.topicIdx);
    RemovedOwnNames(st.t, i);
    RemovedIndexInv(st.t, Removed(st.t, i).0, Gone(st.t, i), st.s.subscriptions, st.log.births, st.tlog);
    hide Removed, Gone, TopicInv, OwnNames, ClientInv, IndexInv, SubInv;
  }
}
