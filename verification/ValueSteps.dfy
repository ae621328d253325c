/** Accepting values, sending them out and changing properties keep the invariant. */
module ValueSteps {
  import opened Basics
  import opened Protocol
  import opened SubValue
  import opened ServerModel
  import opened Mailbox
  import opened Invariants
  import opened ClientSteps

  // ---- properties ----

  lemma {:induction false} PropertiesTopicInv(t: TopicTables, g: TopicLog, n: nat, i: TopicIdx, topic: Topic)
    requires TopicInv(t, g, n) && i in t.topics && topic.name == t.topics[i].name
    ensures TopicInv(t.(topics := t.topics[i := topic]), g, n)
  {
    hide Newest;
  }

  lemma {:induction false} SetPropertiesInv(st: State, name: string, update: PublishProperties)
    requires Inv(st)
    ensures Inv(SetPropertiesStep(st, name, update).st)
  {
    var r := SetPropertiesStep(st, name, update);
    if r.out.Ok? {
      var i := st.t.topicMap[name];
      PropertiesTopicInv(st.t, st.tlog, st.counters.topicIdx, i, r.st.t.topics[i]);
      assert r.st.t.topics.Keys == st.t.topics.Keys;
      hide TopicInv, ClientInv, SubInv, MailInv, Updated;
    }
  }

  // ---- accepting a value ----

  lemma {:induction false} NewestAppend(vs: seq<TimestampedValue>, v: TimestampedValue)
    ensures Newest(vs + [v]) == Replace(Newest(vs), v)
  {
    assert (vs + [v])[..|vs|] == vs;
  }

  lemma {:induction false} AcceptCached(names: seq<string>, accepted: seq<seq<TimestampedValue>>, topicValues: map<TopicIdx, TimestampedValue>,
                                        topicSubs: map<TopicIdx, seq<SubIdx>>, i: TopicIdx, v: TimestampedValue)
    requires Cached(names, accepted, topicValues, topicSubs) && i in topicSubs && '$' !in names[i]
    ensures Cached(names, Append(accepted, i, v), topicValues[i := Replace(Lookup(topicValues, i), v).value], topicSubs)
  {
    hide Newest;
    var after := Append(accepted, i, v);
    assert |after| == |accepted| && after[i] == accepted[i] + [v] && forall k | 0 <= k < |accepted| && k != i :: after[k] == accepted[k];
    NewestAppend(accepted[i], v);
    hide Append, Replace;
  }

  lemma {:induction false} AcceptTopicInv(t: TopicTables, g: TopicLog, n: nat, i: TopicIdx, v: TimestampedValue)
    requires TopicInv(t, g, n) && i in t.topics && '$' !in t.topics[i].name
    ensures TopicInv(t.(topicValues := t.topicValues[i := Replace(Lookup(t.topicValues, i), v).value]),
                     g.(accepted := Append(g.accepted, i, v)), n)
  {
    assert i in t.topicSubs && t.topics[i].name == g.names[i] by { hide Cached, MapNamed; }
    assert |g.accepted| == n by { hide *; }
    assert |Append(g.accepted, i, v)| == n by { hide Cached, MapNamed, TopicsNamed; }
    AcceptCached(g.names, g.accepted, t.topicValues, t.topicSubs, i, v);
    hide Replace, Append, Cached, MapNamed, TopicsNamed;
  }

  lemma {:induction false} AcceptBirths(births: map<SubIdx, Birth>, accepted: seq<seq<TimestampedValue>>, i: TopicIdx, v: TimestampedValue)
    requires BirthsOk(births, accepted)
    ensures BirthsOk(births, Append(accepted, i, v))
  {
    forall s | s in births ensures BirthOk(births[s], Append(accepted, i, v)) {
      assert BirthOk(births[s], accepted);
    }
    hide Newest;
  }

  /** A subscription that is listed for the topic has the value queued, after what it had. */
  lemma {:induction false} QueuedReceived(drained: map<SubIdx, map<TopicIdx, seq<TimestampedValue>>>, store: StoredSubValue, s: SubIdx, i: TopicIdx, v: TimestampedValue,
                                          sent: seq<TimestampedValue>)
    requires Carries(store.All?, Received(drained, store, s, i), sent)
    ensures Carries(store.All?, Received(drained, store.AddValue(i, v), s, i), sent + [v])
    ensures forall k | k != i :: Received(drained, store.AddValue(i, v), s, k) == Received(drained, store, s, k)
  {}

  lemma {:induction false} SinceAppend(b: Birth, accepted: seq<seq<TimestampedValue>>, i: TopicIdx, v: TimestampedValue, k: TopicIdx)
    requires BirthOk(b, accepted) && BirthOk(b, Append(accepted, i, v)) && k in b.listed
    ensures Since(b, Append(accepted, i, v), k) == Since(b, accepted, k) + if k == i then [v] else []
  {
    hide Newest;
  }

  lemma {:induction false} AcceptListed(store: StoredSubValue, sub: Subscription, s: SubIdx, b: Birth, drained: map<SubIdx, map<TopicIdx, seq<TimestampedValue>>>,
                                        accepted: seq<seq<TimestampedValue>>, i: TopicIdx, v: TimestampedValue)
    requires BirthOk(b, accepted) && DeliveredTo(store, sub, s, b, drained, accepted) && i in b.listed
    requires BirthOk(b, Append(accepted, i, v))
    ensures DeliveredTo(store.AddValue(i, v), sub, s, b, drained, Append(accepted, i, v))
  {
    hide Carries, Received, Since, BirthOk, Append;
    QueuedReceived(drained, store, s, i, v, Since(b, accepted, i));
    assert store.AddValue(i, v).All? == store.All? && forall k | k != i :: k in store.AddValue(i, v).Topics() ==> k in store.Topics();
    forall k | k in b.listed ensures Carries(store.All?, Received(drained, store.AddValue(i, v), s, k), Since(b, Append(accepted, i, v), k)) {
      SinceAppend(b, accepted, i, v, k);
      if k != i {
        assert Since(b, Append(accepted, i, v), k) == Since(b, accepted, k);
      }
    }
  }

  lemma {:induction false} AcceptUnlisted(store: StoredSubValue, sub: Subscription, s: SubIdx, b: Birth, drained: map<SubIdx, map<TopicIdx, seq<TimestampedValue>>>,
                                          accepted: seq<seq<TimestampedValue>>, i: TopicIdx, v: TimestampedValue)
    requires BirthOk(b, accepted) && DeliveredTo(store, sub, s, b, drained, accepted) && i !in b.listed
    requires BirthOk(b, Append(accepted, i, v))
    ensures DeliveredTo(store, sub, s, b, drained, Append(accepted, i, v))
  {
    forall k | k in b.listed ensures Since(b, Append(accepted, i, v), k) == Since(b, accepted, k) {
      SinceAppend(b, accepted, i, v, k);
    }
    hide Carries, Received, Since, BirthOk, Append;
  }

  lemma {:induction false} AcceptDelivered(s: SubTables, l: Log, accepted: seq<seq<TimestampedValue>>, list: seq<SubIdx>, i: TopicIdx, v: TimestampedValue)
    requires BirthsOk(l.births, accepted) && BirthsOk(l.births, Append(accepted, i, v))
    requires Delivered(s.subscriptions, s.subValues, l.births, l.drained, accepted)
    requires ListExact(list, i, s.subscriptions.Keys, l.births)
    ensures Delivered(s.subscriptions, Queued(s.subValues, list, i, v), l.births, l.drained, Append(accepted, i, v))
  {
    forall k | k in s.subscriptions && k in s.subValues && k in l.births
      ensures DeliveredTo(Queued(s.subValues, list, i, v)[k], s.subscriptions[k].0, k, l.births[k], l.drained, Append(accepted, i, v))
    {
      if i in l.births[k].listed {
        AcceptListed(s.subValues[k], s.subscriptions[k].0, k, l.births[k], l.drained, accepted, i, v);
      } else {
        AcceptUnlisted(s.subValues[k], s.subscriptions[k].0, k, l.births[k], l.drained, accepted, i, v);
      }
    }
    hide DeliveredTo, BirthOk;
  }

  lemma {:induction false} AcceptExpected(outboxes: map<ClientIdx, seq<Message>>, s: SubTables, births: map<SubIdx, Birth>, topics: set<TopicIdx>,
                                          list: seq<SubIdx>, i: TopicIdx, v: TimestampedValue)
    requires Forewarned(outboxes, s.subscriptions, births, topics) && Expected(outboxes, s.subscriptions, s.subValues)
    requires i in topics && ListExact(list, i, s.subscriptions.Keys, births)
    ensures Expected(outboxes, s.subscriptions, Queued(s.subValues, list, i, v))
  {
    hide Announced;
  }

  lemma {:induction false} AcceptSubInv(s: SubTables, l: Log, accepted: seq<seq<TimestampedValue>>, counters: Counter, list: seq<SubIdx>, i: TopicIdx, v: TimestampedValue)
    requires BirthsOk(l.births, accepted) && SubInv(s, l, accepted, counters) && ListExact(list, i, s.subscriptions.Keys, l.births)
    ensures BirthsOk(l.births, Append(accepted, i, v))
    ensures SubInv(s.(subValues := Queued(s.subValues, list, i, v)), l, Append(accepted, i, v), counters)
  {
    AcceptBirths(l.births, accepted, i, v);
    AcceptDelivered(s, l, accepted, list, i, v);
    assert Queued(s.subValues, list, i, v).Keys == s.subValues.Keys;
    hide Queued, Append, BirthsOk, Delivered, ListExact;
  }

  lemma {:induction false} AcceptMail(c: ClientTables, s: SubTables, births: map<SubIdx, Birth>, topics: set<TopicIdx>, names: seq<string>,
                                      list: seq<SubIdx>, i: TopicIdx, v: TimestampedValue)
    requires MailInv(c, s, births, topics, names) && i in topics && ListExact(list, i, s.subscriptions.Keys, births)
    ensures MailInv(c, s.(subValues := Queued(s.subValues, list, i, v)), births, topics, names)
  {
    AcceptExpected(c.outboxes, s, births, topics, list, i, v);
    hide AllClean, Forewarned, Expected, Booked, Queued, ListExact;
  }

  lemma {:induction false} AcceptIndexInv(t: TopicTables, t': TopicTables, subscriptions: map<SubIdx, (Subscription, ClientIdx)>, births: map<SubIdx, Birth>, g: TopicLog, g': TopicLog)
    requires IndexInv(t, subscriptions, births, g) && t'.topicSubs == t.topicSubs && t'.topicMap == t.topicMap
    requires g'.names == g.names && BirthsOk(births, g'.accepted)
    ensures IndexInv(t', subscriptions, births, g')
  {
    hide BirthsOk, ListsExact, MatchExact, ListedMatch;
  }

  /** `set_value` succeeds exactly on live ordinary topics; it finds a list and every listed store. */
  lemma {:induction false} SetValueInv(st: State, v: TimestampedValue, i: TopicIdx)
    requires Inv(st)
    ensures Inv(SetValueStep(st, v, i).st)
    ensures SetValueStep(st, v, i).out.Ok? <==> i in st.t.topics && '$' !in st.tlog.names[i]
    ensures i in st.t.topics ==> i in st.t.topicSubs && forall s | s in st.t.topicSubs[i] :: s in st.s.subValues
  {
    if i in st.t.topics {
      assert ListExact(st.t.topicSubs[i], i, st.s.subscriptions.Keys, st.log.births);
      if '$' !in st.t.topics[i].name {
        var r := SetValueStep(st, v, i).st;
        var list := st.t.topicSubs[i];
        AcceptTopicInv(st.t, st.tlog, st.counters.topicIdx, i, v);
        AcceptSubInv(st.s, st.log, st.tlog.accepted, st.counters, list, i, v);
        AcceptMail(st.c, st.s, st.log.births, st.t.topics.Keys, st.tlog.names, list, i, v);
        AcceptIndexInv(st.t, r.t, st.s.subscriptions, st.log.births, st.tlog, r.tlog);
        hide TopicInv, ClientInv, IndexInv, SubInv, MailInv, Queued, Append, BirthsOk, ListExact;
      }
    }
  }

  // ---- sending out ----

  lemma {:induction false} TakenReceived(drained: map<SubIdx, map<TopicIdx, seq<TimestampedValue>>>, store: StoredSubValue, s: SubIdx, i: TopicIdx)
    ensures Received(drained[s := Joined(GetOr(drained, s, map[]), store.Taken())], store.Emptied(), s, i) == Received(drained, store, s, i)
  {}

  lemma {:induction false} SendDelivered(s: SubTables, l: Log, accepted: seq<seq<TimestampedValue>>, k: SubIdx)
    requires BirthsOk(l.births, accepted) && k in s.subValues
    requires Delivered(s.subscriptions, s.subValues, l.births, l.drained, accepted)
    ensures var store := s.subValues[k];
      Delivered(s.subscriptions, s.subValues[k := store.Emptied()], l.births, l.drained[k := Joined(GetOr(l.drained, k, map[]), store.Taken())], accepted)
  {
    hide Carries, Since, BirthOk, Joined;
    var store := s.subValues[k];
    var drained := l.drained[k := Joined(GetOr(l.drained, k, map[]), store.Taken())];
    forall i { TakenReceived(l.drained, store, k, i); }
    forall j | j in s.subscriptions && j in s.subValues && j in l.births
      ensures DeliveredTo(s.subValues[k := store.Emptied()][j], s.subscriptions[j].0, j, l.births[j], drained, accepted)
    {
      assert DeliveredTo(s.subValues[j], s.subscriptions[j].0, j, l.births[j], l.drained, accepted);
    }
    hide Carries, Since, BirthOk;
  }

  /** Batches of announced topics may follow any clean channel. */
  lemma {:induction false} PostBatches(ms: seq<Message>, taken: map<TopicIdx, seq<TimestampedValue>>, order: seq<TopicIdx>, names: seq<string>, announced: set<TopicIdx>)
    requires Clean(ms, names) && BookedBy(announced, ms)
    requires forall i | i in order :: Announced(ms, i)
    ensures var all := ms + Batches(taken, order);
      Clean(all, names) && BookedBy(announced, all) && ms <= all && forall i :: Replies(all, i) == Replies(ms, i)
  {
    if order == [] {
      assert ms + [] == ms;
    } else {
      var front, i := order[..|order| - 1], order[|order| - 1];
      PostBatches(ms, taken, front, names, announced);
      var before, m := ms + Batches(taken, front), Binary(WithId(i, GetOr(taken, i, [])));
      assert ms + Batches(taken, order) == before + [m];
      AnnouncedGrows(ms, Batches(taken, front));
      assert Announced(before, i) by { assert i in order; }
      CleanAppend(before, m, names);
      AnnouncedGrows(before, [m]);
      forall k { RepliesAppend(before, m, k); }
    }
    hide Clean, Replies;
  }

  lemma {:induction false} SendMail(c: ClientTables, n: nat, s: SubTables, births: map<SubIdx, Birth>, topics: set<TopicIdx>, names: seq<string>, p: Pick)
    requires Seated(c.clients, c.outboxes, c.clientMap, n) && MailInv(c, s, births, topics, names) && ValidPick(s, p)
    requires s.subscriptions[p.s].1 in c.clients
    ensures MailInv(Deliver(c, s.subscriptions[p.s].1, Batches(s.subValues[p.s].Taken(), p.order)), s, births, topics, names)
  {
    var idx := s.subscriptions[p.s].1;
    var c' := Deliver(c, idx, Batches(s.subValues[p.s].Taken(), p.order));
    if c.clients[idx].hasOutput {
      PostBatches(c.outboxes[idx], s.subValues[p.s].Taken(), p.order, names, c.clients[idx].announced);
    }
    GrownMail(c.outboxes, c'.outboxes, s, births, topics);
    hide Clean, BookedBy, Announced, Forewarned, Expected, Batches, Replies;
  }

  lemma {:induction false} EmptiedMail(c: ClientTables, s: SubTables, births: map<SubIdx, Birth>, topics: set<TopicIdx>, names: seq<string>, k: SubIdx, now: nat)
    requires MailInv(c, s, births, topics, names) && k in s.subValues
    ensures MailInv(c, s.(subValues := s.subValues[k := s.subValues[k].Emptied()], sendTimes := s.sendTimes[k := now]), births, topics, names)
  {
    hide AllClean, Forewarned, Booked, Announced;
  }

  lemma {:induction false} StampSubInv(s: SubTables, l: Log, accepted: seq<seq<TimestampedValue>>, counters: Counter, k: SubIdx, now: nat)
    requires BirthsOk(l.births, accepted) && SubInv(s, l, accepted, counters) && k in s.subscriptions
    ensures SubInv(s.(sendTimes := s.sendTimes[k := now]), l, accepted, counters)
  {
    assert s.sendTimes[k := now].Keys == s.sendTimes.Keys;
    hide Delivered, BirthsOk;
  }

  lemma {:induction false} SendSubInvTables(s: SubTables, l: Log, accepted: seq<seq<TimestampedValue>>, counters: Counter, k: SubIdx, now: nat)
    requires BirthsOk(l.births, accepted) && SubInv(s, l, accepted, counters) && k in s.subscriptions && k in s.subValues
    ensures SubInv(s.(sendTimes := s.sendTimes[k := now], subValues := s.subValues[k := s.subValues[k].Emptied()]),
                   l.(drained := l.drained[k := Joined(GetOr(l.drained, k, map[]), s.subValues[k].Taken())]), accepted, counters)
  {
    SendDelivered(s, l, accepted, k);
    assert s.sendTimes[k := now].Keys == s.sendTimes.Keys;
    assert s.subValues[k := s.subValues[k].Emptied()].Keys == s.subValues.Keys;
    hide Delivered, BirthsOk, Joined;
  }

  lemma {:induction false} DeliverClients(c: ClientTables, idx: ClientIdx, ms: seq<Message>, n: nat, names: seq<string>, last: map<(ClientIdx, PubUID), string>,
                                          subscriptions: map<SubIdx, (Subscription, ClientIdx)>)
    requires ClientInv(c, n, names, last, subscriptions)
    ensures ClientInv(Deliver(c, idx, ms), n, names, last, subscriptions)
  {
    hide Routed, Owned;
  }

  lemma {:induction false} SendSubInv(st: State, p: Pick, now: nat)
    requires Inv(st) && ValidPick(st.s, p)
    ensures Inv(SendSub(st, p, now))
  {
    var idx := st.s.subscriptions[p.s].1;
    hide Joined, Batches, ClientInv, TopicInv, IndexInv;
    if idx !in st.c.clients {
      StampSubInv(st.s, st.log, st.tlog.accepted, st.counters, p.s, now);
      hide SubInv, BirthsOk;
    } else {
      SendSubInvTables(st.s, st.log, st.tlog.accepted, st.counters, p.s, now);
      SendSubMail(st, p, now);
      DeliverClients(st.c, idx, Batches(st.s.subValues[p.s].Taken(), p.order), st.counters.clientIdx, st.tlog.names, st.log.lastPublished, st.s.subscriptions);
      hide SubInv, MailInv, BirthsOk, Deliver;
    }
  }

  lemma {:induction false} SendSubMail(st: State, p: Pick, now: nat)
    requires Inv(st) && ValidPick(st.s, p) && st.s.subscriptions[p.s].1 in st.c.clients
    ensures var store := st.s.subValues[p.s];
      MailInv(Deliver(st.c, st.s.subscriptions[p.s].1, Batches(store.Taken(), p.order)),
              st.s.(sendTimes := st.s.sendTimes[p.s := now], subValues := st.s.subValues[p.s := store.Emptied()]),
              st.log.births, st.t.topics.Keys, st.tlog.names)
  {
    SendMail(st.c, st.counters.clientIdx, st.s, st.log.births, st.t.topics.Keys, st.tlog.names, p);
    EmptiedMail(Deliver(st.c, st.s.subscriptions[p.s].1, Batches(st.s.subValues[p.s].Taken(), p.order)), st.s, st.log.births, st.t.topics.Keys, st.tlog.names, p.s, now);
    hide TopicInv, ClientInv, IndexInv, SubInv, MailInv, Deliver, Batches;
  }
}
