/** Subscribing and unsubscribing keep the invariant. */
module Subscribing {
  import opened Basics
  import opened BiMap
  import opened Protocol
  import opened MetaTopic
  import opened SubValue
  import opened ServerModel
  import opened Mailbox
  import opened Invariants
  import opened ClientSteps

  // ---- the loop over interested topics ----

  ghost predicate DistinctIds(found: seq<(TopicIdx, string)>) {
    forall j, k :: 0 <= j < k < |found| ==> found[j].0 != found[k].0
  }

  /** The loop finds exactly the matching names, each under its id, and no id twice. */
  ghost predicate Finds(found: seq<(TopicIdx, string)>, topicMap: map<string, TopicIdx>, sub: Subscription, names: set<string>) {
    && DistinctIds(found)
    && (forall k | 0 <= k < |found| :: found[k].1 in names && found[k].1 in topicMap && topicMap[found[k].1] == found[k].0 && sub.CaresAbout(found[k].1))
    && (forall n | n in names && n in topicMap && sub.CaresAbout(n) :: topicMap[n] in Ids(found))
  }

  /** The loop over `front + [n]` finds what the loop over `front` found, and `n` if it matches. */
  lemma {:induction false} FindsOneMore(topicMap: map<string, TopicIdx>, sub: Subscription, front: set<string>, n: string, found: seq<(TopicIdx, string)>, ids: seq<string>)
    requires MapNamed(topicMap, ids) && Finds(found, topicMap, sub, front) && n !in front && n in topicMap
    ensures Finds(found + if sub.CaresAbout(n) then [(topicMap[n], n)] else [], topicMap, sub, front + {n})
  {
    if sub.CaresAbout(n) {
      IdsOfAppend(found, (topicMap[n], n));
      forall k | 0 <= k < |found| ensures found[k].0 != topicMap[n] {
        assert ids[found[k].0] == found[k].1;
      }
    } else {
      assert found + [] == found;
    }
    hide Ids;
  }

  lemma {:induction false} MatchesFinds(topicMap: map<string, TopicIdx>, sub: Subscription, order: seq<string>, ids: seq<string>)
    requires Distinct(order) && MapNamed(topicMap, ids) && forall n | n in order :: n in topicMap
    ensures Finds(Matches(topicMap, sub, order), topicMap, sub, set n | n in order)
  {
    if order != [] {
      var front, n := order[..|order| - 1], order[|order| - 1];
      MatchesFinds(topicMap, sub, front, ids);
      assert order == front + [n];
      FindsOneMore(topicMap, sub, (set m | m in front), n, Matches(topicMap, sub, front), ids);
      assert (set m | m in order) == (set m | m in front) + {n};
      hide Finds, MapNamed;
    }
  }

  /** What the loop has done once it saw the topics in `found`. */
  ghost predicate Visited(v: Visit, t: TopicTables, s: SubIdx, found: seq<(TopicIdx, string)>) {
    && v.ok
    && v.lists.Keys == t.topicSubs.Keys
    && (forall i | i in t.topicSubs :: v.lists[i] == if i in Ids(found) then t.topicSubs[i] + [s] else t.topicSubs[i])
  }

  lemma {:induction false} VisitTopicLists(t: TopicTables, s: SubIdx, v: Visit, i: TopicIdx, name: string)
    requires v.ok && i in v.lists
    ensures var r := VisitTopic(t, s, v, i, name); r.ok && r.lists == v.lists[i := v.lists[i] + [s]]
  {}

  lemma {:induction false} VisitedOneMore(v: Visit, v': Visit, t: TopicTables, s: SubIdx, front: seq<(TopicIdx, string)>, last: (TopicIdx, string))
    requires Visited(v, t, s, front) && last.0 in t.topicSubs && last.0 !in Ids(front)
    requires v'.ok && v'.lists == v.lists[last.0 := v.lists[last.0] + [s]]
    ensures Visited(v', t, s, front + [last])
  {
    hide Ids;
    IdsOfAppend(front, last);
  }

  lemma {:induction false} LastNew(front: seq<(TopicIdx, string)>, last: (TopicIdx, string))
    requires DistinctIds(front + [last])
    ensures DistinctIds(front) && last.0 !in Ids(front)
  {
    var found := front + [last];
    forall k | 0 <= k < |front| ensures front[k].0 != last.0 {
      assert found[k] == front[k] && found[|front|] == last;
    }
    forall j, k | 0 <= j < k < |front| ensures front[j].0 != front[k].0 {
      assert found[j] == front[j] && found[k] == front[k];
    }
  }

  lemma {:induction false} VisitAllLists(t: TopicTables, s: SubIdx, found: seq<(TopicIdx, string)>)
    requires DistinctIds(found) && forall k | 0 <= k < |found| :: found[k].0 in t.topicSubs
    ensures Visited(VisitAll(t, s, found), t, s, found)
  {
    hide DistinctIds, VisitTopic, Ids, Visited;
    if found == [] {
      VisitedNone(t, s);
    } else {
      var front, last := found[..|found| - 1], found[|found| - 1];
      assert found == front + [last] && last.0 in t.topicSubs;
      LastNew(front, last);
      VisitAllLists(t, s, front);
      var v := VisitAll(t, s, front);
      VisitedLists(v, t, s, front, last.0);
      VisitTopicLists(t, s, v, last.0, last.1);
      VisitedOneMore(v, VisitAll(t, s, found), t, s, front, last);
    }
  }

  lemma {:induction false} VisitedNone(t: TopicTables, s: SubIdx)
    ensures Visited(Visit(t.topicSubs, [], [], true), t, s, [])
  {
    assert Ids([]) == {};
  }

  lemma {:induction false} VisitedLists(v: Visit, t: TopicTables, s: SubIdx, found: seq<(TopicIdx, string)>, i: TopicIdx)
    requires Visited(v, t, s, found) && i in t.topicSubs
    ensures v.ok && i in v.lists
  {
    hide Ids;
  }

  lemma {:induction false} IdsOfAppend(front: seq<(TopicIdx, string)>, last: (TopicIdx, string))
    ensures Ids(front + [last]) == Ids(front) + {last.0}
  {
    var all := front + [last];
    forall i | i in Ids(front) + {last.0} ensures i in Ids(all) {
      if i == last.0 {
        assert all[|front|].0 == i;
      } else {
        var k :| 0 <= k < |front| && front[k].0 == i;
        assert all[k].0 == i;
      }
    }
  }

  /** The announcements are truthful, answer no publish, and cover every topic that is live or cached. */
  ghost predicate AnnouncesFound(announces: seq<NTMessage>, t: TopicTables, names: seq<string>, ids: set<TopicIdx>) {
    && (forall j | 0 <= j < |announces| :: Truthful(announces[j], names) && announces[j].announce.pubuid.None?)
    && (forall i | i in ids && (i in t.topics || i in t.topicValues) :: Announces(Text(announces), i))
  }

  lemma {:induction false} AnnouncesOneMore(announces: seq<NTMessage>, t: TopicTables, names: seq<string>, ids: set<TopicIdx>, a: Announce)
    requires AnnouncesFound(announces, t, names, ids) && Truthful(Announcement(a), names) && a.pubuid.None?
    ensures AnnouncesFound(announces + [Announcement(a)], t, names, ids + {a.id})
  {
    var after := announces + [Announcement(a)];
    forall i | i == a.id || Announces(Text(announces), i) ensures Announces(Text(after), i) {
      if i == a.id {
        assert AnnouncesId(after[|announces|], i);
      } else {
        var j :| 0 <= j < |announces| && AnnouncesId(announces[j], i);
        assert AnnouncesId(after[j], i);
      }
    }
    hide Announces;
  }

  lemma {:induction false} VisitAllAnnounces(t: TopicTables, s: SubIdx, found: seq<(TopicIdx, string)>, names: seq<string>)
    requires forall k | 0 <= k < |found| :: found[k].0 < |names| && names[found[k].0] == found[k].1
    requires VisitAll(t, s, found).ok
    ensures AnnouncesFound(VisitAll(t, s, found).announces, t, names, Ids(found))
  {
    if found != [] {
      var front, last := found[..|found| - 1], found[|found| - 1];
      VisitAllAnnounces(t, s, front, names);
      IdsOfAppend(front, last);
      assert found == front + [last];
      var before, after := VisitAll(t, s, front).announces, VisitAll(t, s, found).announces;
      if KindOf(t, last.0, last.1).Some? {
        AnnouncesOneMore(before, t, names, Ids(front), after[|before|].announce);
      }
      hide Announces, Ids;
    }
  }

  /** The values sent are the cached ones of the topics found: those and no others. */
  ghost predicate SendsCached(values: seq<(TopicIdx, TimestampedValue)>, cache: map<TopicIdx, TimestampedValue>, ids: set<TopicIdx>) {
    && (forall j | 0 <= j < |values| :: values[j].0 in ids && values[j].0 in cache && values[j].1 == cache[values[j].0])
    && (forall i | i in ids && i in cache :: (i, cache[i]) in values)
  }

  lemma {:induction false} VisitAllValues(t: TopicTables, s: SubIdx, found: seq<(TopicIdx, string)>)
    requires VisitAll(t, s, found).ok
    ensures SendsCached(VisitAll(t, s, found).values, t.topicValues, Ids(found))
  {
    if found != [] {
      var front, last := found[..|found| - 1], found[|found| - 1];
      VisitAllValues(t, s, front);
      IdsOfAppend(front, last);
      assert found == front + [last];
    }
  }

  // ---- entering the tables ----

  lemma {:induction false} EnrolBirths(births: map<SubIdx, Birth>, s: SubIdx, b: Birth, accepted: seq<seq<TimestampedValue>>)
    requires BirthsOk(births, accepted) && BirthOk(b, accepted)
    ensures BirthsOk(births[s := b], accepted)
  {
    hide BirthOk;
  }

  lemma {:induction false} BirthOfOk(st: State, listed: set<TopicIdx>)
    requires TopicInv(st.t, st.tlog, st.counters.topicIdx)
    requires forall i | i in listed :: i in st.t.topicSubs
    ensures BirthOk(BirthOf(st, listed), st.tlog.accepted)
  {
    hide Newest;
  }

  lemma {:induction false} AppendList(list: seq<SubIdx>, s: SubIdx, i: TopicIdx, subs: set<SubIdx>, births: map<SubIdx, Birth>, b: Birth)
    requires ListExact(list, i, subs, births) && s !in births && forall k | k in births :: k < s
    ensures ListExact(if i in b.listed then list + [s] else list, i, subs + {s}, births[s := b])
  {
    if i in b.listed {
      forall k | 0 <= k < |list| ensures list[k] < s {
        assert list[k] in list;
      }
    }
  }

  lemma {:induction false} EnrolLists(t: TopicTables, v: Visit, s: SubIdx, found: seq<(TopicIdx, string)>, subs: set<SubIdx>, births: map<SubIdx, Birth>, b: Birth)
    requires ListsExact(t.topicSubs, subs, births) && Visited(v, t, s, found) && b.listed == Ids(found)
    requires s !in births && forall k | k in births :: k < s
    ensures ListsExact(v.lists, subs + {s}, births[s := b])
  {
    forall i | i in v.lists ensures ListExact(v.lists[i], i, subs + {s}, births[s := b]) {
      AppendList(t.topicSubs[i], s, i, subs, births, b);
    }
  }

  /** What the loop found are matching names, by their ids. */
  lemma {:induction false} FoundMatch(topicMap: map<string, TopicIdx>, names: seq<string>, sub: Subscription, found: seq<(TopicIdx, string)>)
    requires MapNamed(topicMap, names) && Finds(found, topicMap, sub, topicMap.Keys)
    ensures forall i | i in Ids(found) :: i < |names| && sub.CaresAbout(names[i])
    ensures forall n | n in topicMap :: topicMap[n] in Ids(found) <==> sub.CaresAbout(n)
  {
    forall i | i in Ids(found) ensures i < |names| && sub.CaresAbout(names[i]) {
      var k :| 0 <= k < |found| && found[k].0 == i;
      assert found[k].1 in topicMap && names[i] == found[k].1;
    }
    forall n | n in topicMap ensures topicMap[n] in Ids(found) <==> sub.CaresAbout(n) {
      if topicMap[n] in Ids(found) {
        var k :| 0 <= k < |found| && found[k].0 == topicMap[n];
        assert names[found[k].0] == n;
      }
    }
  }

  lemma {:induction false} EnrolMatch(topicMap: map<string, TopicIdx>, subscriptions: map<SubIdx, (Subscription, ClientIdx)>, births: map<SubIdx, Birth>,
                                      names: seq<string>, s: SubIdx, sub: Subscription, c: ClientIdx, b: Birth, found: seq<(TopicIdx, string)>)
    requires MatchExact(topicMap, subscriptions, births) && ListedMatch(subscriptions, births, names) && MapNamed(topicMap, names)
    requires Finds(found, topicMap, sub, topicMap.Keys) && b.listed == Ids(found) && |b.seen| == |names|
    ensures MatchExact(topicMap, subscriptions[s := (sub, c)], births[s := b])
    ensures ListedMatch(subscriptions[s := (sub, c)], births[s := b], names)
  {
    FoundMatch(topicMap, names, sub, found);
    hide Finds, Ids;
  }

  lemma {:induction false} DeliveredToSame(store: StoredSubValue, sub: Subscription, s: SubIdx, b: Birth, drained: map<SubIdx, map<TopicIdx, seq<TimestampedValue>>>,
                                           drained': map<SubIdx, map<TopicIdx, seq<TimestampedValue>>>, accepted: seq<seq<TimestampedValue>>)
    requires BirthOk(b, accepted) && DeliveredTo(store, sub, s, b, drained, accepted)
    requires GetOr(drained, s, map[]) == GetOr(drained', s, map[])
    ensures DeliveredTo(store, sub, s, b, drained', accepted)
  {
    hide Carries, Since;
  }

  lemma {:induction false} DeliveredAtBirth(sub: Subscription, s: SubIdx, b: Birth, drained: map<SubIdx, map<TopicIdx, seq<TimestampedValue>>>, accepted: seq<seq<TimestampedValue>>)
    requires BirthOk(b, accepted) && b.seen == accepted && GetOr(drained, s, map[]) == map[]
    ensures DeliveredTo(NewStore(sub), sub, s, b, drained, accepted)
  {}

  lemma {:induction false} EnrolDelivered(s: SubTables, l: Log, accepted: seq<seq<TimestampedValue>>, k: SubIdx, sub: Subscription, c: ClientIdx, b: Birth)
    requires BirthsOk(l.births, accepted) && Delivered(s.subscriptions, s.subValues, l.births, l.drained, accepted) && k !in l.births
    requires BirthOk(b, accepted) && b.seen == accepted && BirthsOk(l.births[k := b], accepted)
    ensures Delivered(s.subscriptions[k := (sub, c)], s.subValues[k := NewStore(sub)], l.births[k := b], l.drained[k := map[]], accepted)
  {
    var drained := l.drained[k := map[]];
    DeliveredAtBirth(sub, k, b, drained, accepted);
    forall j | j in s.subscriptions && j in s.subValues && j in l.births
      ensures DeliveredTo(s.subValues[j], s.subscriptions[j].0, j, l.births[j], drained, accepted)
    {
      DeliveredToSame(s.subValues[j], s.subscriptions[j].0, j, l.births[j], l.drained, drained, accepted);
    }
    hide DeliveredTo, BirthOk, NewStore;
  }

  // ---- telling the client ----

  /** The announcements and the cached values may follow any clean channel. */
  lemma {:induction false} PostWelcome(ms: seq<Message>, v: Visit, names: seq<string>, t: TopicTables, ids: set<TopicIdx>, announced: set<TopicIdx>)
    requires Clean(ms, names) && AnnouncesFound(v.announces, t, names, ids) && SendsCached(v.values, t.topicValues, ids)
    requires BookedBy(announced, ms)
    ensures var all := ms + [Text(v.announces), Binary(v.values)];
      && Clean(all, names) && BookedBy(announced, all) && (forall i :: Replies(all, i) == Replies(ms, i))
      && (forall i | i in ids && i in t.topics :: Announced(all, i))
  {
    var text, values := Text(v.announces), Binary(v.values);
    var told, all := ms + [text], ms + [text, values];
    assert all == told + [values];
    CleanAppend(ms, text, names);
    forall i | Announces(text, i) ensures Announced(told, i) {
      AnnouncedLast(ms, text, i);
    }
    CleanAppend(told, values, names);
    AnnouncedGrows(told, [values]);
    AnnouncedGrows(ms, [text]);
    forall i ensures Replies(all, i) == Replies(ms, i) {
      RepliesAppend(ms, text, i);
      RepliesAppend(told, values, i);
      NoReplies(v.announces, i);
    }
  }

  lemma {:induction false} EnrolOwned(clients: map<ClientIdx, ConnectedClient>, idx: ClientIdx, sub: Subscription, s: SubIdx,
                                      subscriptions: map<SubIdx, (Subscription, ClientIdx)>)
    requires Owned(clients, subscriptions) && idx in clients && s !in subscriptions
    ensures Owned(clients[idx := BindSub(clients[idx], sub, s)], subscriptions[s := (sub, idx)])
  {
    var clients' := clients[idx := BindSub(clients[idx], sub, s)];
    forall c | c in clients' ensures clients'[c].subs.Inverts() {
      assert clients[c].subs.Inverts();
    }
  }

  lemma {:induction false} EnrolClients(c: ClientTables, idx: ClientIdx, sub: Subscription, s: SubIdx, v: Visit, n: nat, names: seq<string>,
                                        last: map<(ClientIdx, PubUID), string>, subscriptions: map<SubIdx, (Subscription, ClientIdx)>)
    requires ClientInv(c, n, names, last, subscriptions) && idx in c.clients && s !in subscriptions
    ensures ClientInv(Welcomed(c, idx, sub, s, v), n, names, last, subscriptions[s := (sub, idx)])
  {
    EnrolOwned(c.clients, idx, sub, s, subscriptions);
    WelcomedParts(c, idx, n, sub, s, v);
    hide Owned, Welcomed;
  }

  lemma {:induction false} EnrolForewarned(outboxes: map<ClientIdx, seq<Message>>, s: SubTables, births: map<SubIdx, Birth>, topics: set<TopicIdx>,
                                           k: SubIdx, sub: Subscription, idx: ClientIdx, b: Birth)
    requires Forewarned(outboxes, s.subscriptions, births, topics) && Expected(outboxes, s.subscriptions, s.subValues)
    requires idx in outboxes ==> forall i | i in b.listed && i in topics :: Announced(outboxes[idx], i)
    ensures Forewarned(outboxes, s.subscriptions[k := (sub, idx)], births[k := b], topics)
    ensures Expected(outboxes, s.subscriptions[k := (sub, idx)], s.subValues[k := NewStore(sub)])
  {
    hide Announced;
  }

  function Greeted(outboxes: map<ClientIdx, seq<Message>>, idx: ClientIdx, v: Visit): map<ClientIdx, seq<Message>> {
    if idx in outboxes then outboxes[idx := outboxes[idx] + [Text(v.announces), Binary(v.values)]] else outboxes
  }

  lemma {:induction false} GreetedMail(c: ClientTables, idx: ClientIdx, v: Visit, names: seq<string>, t: TopicTables, ids: set<TopicIdx>, s: SubTables, births: map<SubIdx, Birth>)
    requires MailInv(c, s, births, t.topics.Keys, names) && idx in c.clients
    requires AnnouncesFound(v.announces, t, names, ids) && SendsCached(v.values, t.topicValues, ids)
    ensures MailInv(c.(outboxes := Greeted(c.outboxes, idx, v)), s, births, t.topics.Keys, names)
    ensures idx in c.outboxes ==> forall i | i in ids && i in t.topics :: Announced(Greeted(c.outboxes, idx, v)[idx], i)
  {
    if idx in c.outboxes {
      PostWelcome(c.outboxes[idx], v, names, t, ids, c.clients[idx].announced);
    }
    GrownMail(c.outboxes, Greeted(c.outboxes, idx, v), s, births, t.topics.Keys);
    hide Clean, BookedBy, AnnouncesFound, SendsCached, Announced, Forewarned, Expected, Replies;
  }

  lemma {:induction false} BindSubBooked(clients: map<ClientIdx, ConnectedClient>, outboxes: map<ClientIdx, seq<Message>>, idx: ClientIdx, sub: Subscription, k: SubIdx)
    requires Booked(clients, outboxes) && idx in clients
    ensures Booked(clients[idx := BindSub(clients[idx], sub, k)], outboxes)
  {
    hide BookedBy;
  }

  /** The client tables after a subscription. */
  function Welcomed(c: ClientTables, idx: ClientIdx, sub: Subscription, k: SubIdx, v: Visit): ClientTables
    requires idx in c.clients
  {
    Deliver(c.(clients := c.clients[idx := BindSub(c.clients[idx], sub, k)]), idx, [Text(v.announces), Binary(v.values)])
  }

  lemma {:induction false} WelcomedParts(c: ClientTables, idx: ClientIdx, n: nat, sub: Subscription, k: SubIdx, v: Visit)
    requires Seated(c.clients, c.outboxes, c.clientMap, n) && idx in c.clients
    ensures Welcomed(c, idx, sub, k, v) == ClientTables(c.clientMap, c.clients[idx := BindSub(c.clients[idx], sub, k)], Greeted(c.outboxes, idx, v))
  {}

  lemma {:induction false} EnrolMail(c: ClientTables, idx: ClientIdx, n: nat, sub: Subscription, s: SubTables, k: SubIdx, births: map<SubIdx, Birth>, b: Birth,
                                     t: TopicTables, names: seq<string>, v: Visit, s': SubTables)
    requires Seated(c.clients, c.outboxes, c.clientMap, n) && idx in c.clients && MailInv(c, s, births, t.topics.Keys, names)
    requires AnnouncesFound(v.announces, t, names, b.listed) && SendsCached(v.values, t.topicValues, b.listed)
    requires s'.subscriptions == s.subscriptions[k := (sub, idx)] && s'.subValues == s.subValues[k := NewStore(sub)]
    ensures MailInv(Welcomed(c, idx, sub, k, v), s', births[k := b], t.topics.Keys, names)
  {
    var outboxes := Greeted(c.outboxes, idx, v);
    WelcomedParts(c, idx, n, sub, k, v);
    GreetedMail(c, idx, v, names, t, b.listed, s, births);
    assert idx in outboxes <==> idx in c.outboxes;
    EnrolForewarned(outboxes, s, births, t.topics.Keys, k, sub, idx, b);
    BindSubBooked(c.clients, outboxes, idx, sub, k);
    hide Welcomed, Greeted, AnnouncesFound, SendsCached, AllClean, Booked, Forewarned, Expected, NewStore, Seated;
  }

  lemma {:induction false} FoundInTables(t: TopicTables, g: TopicLog, n: nat, found: seq<(TopicIdx, string)>, sub: Subscription)
    requires TopicInv(t, g, n) && Finds(found, t.topicMap, sub, t.topicMap.Keys)
    ensures forall k | 0 <= k < |found| :: found[k].0 in t.topicSubs && found[k].0 < |g.names| && g.names[found[k].0] == found[k].1
    ensures forall i | i in Ids(found) :: i in t.topicSubs
  {
    hide Newest;
  }

  /** The error exit for a topic without a subscriber list is never taken. */
  lemma {:induction false} SubscribeVisits(st: State, sub: Subscription, order: seq<string>)
    requires Inv(st) && Enumerates(order, st.t.topicMap.Keys)
    ensures var found := Matches(st.t.topicMap, sub, order);
      var v := VisitAll(st.t, st.counters.subIdx, found);
      && Finds(found, st.t.topicMap, sub, st.t.topicMap.Keys)
      && (forall i | i in Ids(found) :: i in st.t.topicSubs)
      && Visited(v, st.t, st.counters.subIdx, found)
      && AnnouncesFound(v.announces, st.t, st.tlog.names, Ids(found))
      && SendsCached(v.values, st.t.topicValues, Ids(found))
  {
    var found := Matches(st.t.topicMap, sub, order);
    MatchesFinds(st.t.topicMap, sub, order, st.tlog.names);
    assert (set n | n in order) == st.t.topicMap.Keys;
    FoundInTables(st.t, st.tlog, st.counters.topicIdx, found, sub);
    VisitAllLists(st.t, st.counters.subIdx, found);
    VisitAllAnnounces(st.t, st.counters.subIdx, found, st.tlog.names);
    VisitAllValues(st.t, st.counters.subIdx, found);
    hide *;
  }

  lemma {:induction false} EnrolTopicInv(t: TopicTables, lists': map<TopicIdx, seq<SubIdx>>, g: TopicLog, n: nat)
    requires TopicInv(t, g, n) && lists'.Keys == t.topicSubs.Keys
    ensures TopicInv(t.(topicSubs := lists'), g, n)
  {
    hide Newest;
  }

  lemma {:induction false} EnrolIndexInv(t: TopicTables, g: TopicLog, n: nat, subscriptions: map<SubIdx, (Subscription, ClientIdx)>, births: map<SubIdx, Birth>,
                                         v: Visit, s: SubIdx, found: seq<(TopicIdx, string)>, sub: Subscription, c: ClientIdx, b: Birth)
    requires TopicInv(t, g, n) && IndexInv(t, subscriptions, births, g)
    requires Visited(v, t, s, found) && Finds(found, t.topicMap, sub, t.topicMap.Keys)
    requires BirthOk(b, g.accepted) && b.listed == Ids(found) && b.seen == g.accepted
    requires s !in births && forall k | k in births :: k < s
    ensures TopicInv(t.(topicSubs := v.lists), g, n)
    ensures IndexInv(t.(topicSubs := v.lists), subscriptions[s := (sub, c)], births[s := b], g)
  {
    EnrolTopicInv(t, v.lists, g, n);
    EnrolBirths(births, s, b, g.accepted);
    EnrolLists(t, v, s, found, subscriptions.Keys, births, b);
    EnrolMatch(t.topicMap, subscriptions, births, g.names, s, sub, c, b, found);
    assert subscriptions[s := (sub, c)].Keys == subscriptions.Keys + {s};
    hide Visited, Finds, TopicInv, BirthOk, BirthsOk, ListsExact, MatchExact, ListedMatch;
  }

  lemma {:induction false} EnrolTabled(s: SubTables, births: map<SubIdx, Birth>, counters: Counter, sub: Subscription, c: ClientIdx, b: Birth, s': SubTables, births': map<SubIdx, Birth>)
    requires Tabled(s.subscriptions, s.subValues, s.sendTimes, births, counters.subIdx, counters.clientIdx) && c < counters.clientIdx
    requires s'.subscriptions == s.subscriptions[counters.subIdx := (sub, c)] && s'.subValues.Keys == s.subValues.Keys + {counters.subIdx}
    requires s'.sendTimes.Keys == s.sendTimes.Keys + {counters.subIdx} && births' == births[counters.subIdx := b]
    ensures Tabled(s'.subscriptions, s'.subValues, s'.sendTimes, births', counters.subIdx + 1, counters.clientIdx)
    ensures counters.subIdx !in births && counters.subIdx !in s.subscriptions
  {}

  lemma {:induction false} EnrolSubInv(s: SubTables, l: Log, accepted: seq<seq<TimestampedValue>>, counters: Counter, sub: Subscription, c: ClientIdx, b: Birth, s': SubTables, l': Log)
    requires BirthsOk(l.births, accepted) && SubInv(s, l, accepted, counters) && c < counters.clientIdx
    requires BirthOk(b, accepted) && b.seen == accepted
    requires s'.subscriptions == s.subscriptions[counters.subIdx := (sub, c)] && s'.subValues == s.subValues[counters.subIdx := NewStore(sub)]
    requires s'.sendTimes.Keys == s.sendTimes.Keys + {counters.subIdx}
    requires l'.births == l.births[counters.subIdx := b] && l'.drained == l.drained[counters.subIdx := map[]] && BirthsOk(l'.births, accepted)
    ensures SubInv(s', l', accepted, counters.NextSub())
  {
    hide Delivered, BirthsOk, BirthOk, NewStore, Tabled;
    EnrolTabled(s, l.births, counters, sub, c, b, s', l'.births);
    EnrolDelivered(s, l, accepted, counters.subIdx, sub, c, b);
  }

  lemma {:induction false} SubscribeShape(st: State, sub: Subscription, c: ClientIdx, order: seq<string>, now: nat)
    requires c in st.c.clients && forall n | n in order :: n in st.t.topicMap
    ensures var s := st.counters.subIdx;
      var found := Matches(st.t.topicMap, sub, order);
      var v := VisitAll(st.t, s, found);
      var b := BirthOf(st, Ids(found));
      SubscribeStep(st, sub, c, order, now) ==
        if v.ok then
          Result(st.(t := st.t.(topicSubs := v.lists),
                     counters := st.counters.NextSub(),
                     s := SubTables(st.s.subscriptions[s := (sub, c)], st.s.subValues[s := NewStore(sub)], st.s.sendTimes[s := now]),
                     log := st.log.(births := st.log.births[s := b], drained := st.log.drained[s := map[]]),
                     c := Welcomed(st.c, c, sub, s, v)), Ok(()))
        else Result(st.(t := st.t.(topicSubs := v.lists), counters := st.counters.NextSub()), Err(TopicDoesNotExist))
  {
    hide Matches, VisitAll, Ids, NewStore, Deliver, BindSub;
  }

  /** What a new subscription relies on. */
  lemma {:induction false} NextFree(st: State, c: ClientIdx)
    requires Inv(st) && c in st.c.clients
    ensures var s := st.counters.subIdx;
      && c < st.counters.clientIdx && Seated(st.c.clients, st.c.outboxes, st.c.clientMap, st.counters.clientIdx)
      && s !in st.log.births && (forall k | k in st.log.births :: k < s) && s !in st.s.subscriptions
      && BirthsOk(st.log.births, st.tlog.accepted)
  {
    hide TopicInv, OwnNames, MailInv, Delivered, Routed, Owned, ListsExact, MatchExact, ListedMatch, BirthsOk;
  }

  lemma {:induction false} VisitedOk(v: Visit, t: TopicTables, s: SubIdx, found: seq<(TopicIdx, string)>)
    requires Visited(v, t, s, found)
    ensures v.ok
  {}

  lemma {:induction false} SameNamesOwned(t: TopicTables, lists: map<TopicIdx, seq<SubIdx>>)
    requires OwnNames(t.topics, t.topicMap)
    ensures OwnNames(t.(topicSubs := lists).topics, t.(topicSubs := lists).topicMap)
  {}

  lemma {:induction false} SubscribeInv(st: State, sub: Subscription, c: ClientIdx, order: seq<string>, now: nat)
    requires Inv(st) && Enumerates(order, st.t.topicMap.Keys)
    ensures Inv(SubscribeStep(st, sub, c, order, now).st)
    ensures SubscribeStep(st, sub, c, order, now).out.Ok? <==> c in st.c.clients
  {
    hide TopicInv, OwnNames, ClientInv, IndexInv, SubInv, MailInv, Seated, Visited, Finds, BirthOk, BirthsOk, AnnouncesFound, SendsCached, Welcomed, NewStore, VisitAll, Matches, Ids;
    if c in st.c.clients {
      var s := st.counters.subIdx;
      var found := Matches(st.t.topicMap, sub, order);
      var v := VisitAll(st.t, s, found);
      var b := BirthOf(st, Ids(found));
      SubscribeShape(st, sub, c, order, now);
      SubscribeVisits(st, sub, order);
      hide SubscribeStep;
      BirthOfOk(st, Ids(found));
      VisitedOk(v, st.t, s, found);
      NextFree(st, c);
      var st' := SubscribeStep(st, sub, c, order, now).st;
      EnrolIndexInv(st.t, st.tlog, st.counters.topicIdx, st.s.subscriptions, st.log.births, v, s, found, sub, c, b);
      EnrolBirths(st.log.births, s, b, st.tlog.accepted);
      EnrolSubInv(st.s, st.log, st.tlog.accepted, st.counters, sub, c, b, st'.s, st'.log);
      EnrolClients(st.c, c, sub, s, v, st.counters.clientIdx, st.tlog.names, st.log.lastPublished, st.s.subscriptions);
      EnrolMail(st.c, c, st.counters.clientIdx, sub, st.s, s, st.log.births, b, st.t, st.tlog.names, v, st'.s);
      SameNamesOwned(st.t, v.lists);
    }
  }

  // ---- unsubscribing ----

  lemma {:induction false} WithoutAscending(list: seq<SubIdx>, s: SubIdx)
    requires Ascending(list)
    ensures Ascending(Without(list, [s]))
  {
    if list != [] {
      var front, last := list[..|list| - 1], list[|list| - 1];
      WithoutAscending(front, s);
      WithoutContents(front, [s]);
      forall k | 0 <= k < |Without(front, [s])| ensures Without(front, [s])[k] < last {
        assert Without(front, [s])[k] in Without(front, [s]);
      }
    }
  }

  lemma {:induction false} LeaveLists(lists: map<TopicIdx, seq<SubIdx>>, subs: set<SubIdx>, births: map<SubIdx, Birth>, s: SubIdx)
    requires ListsExact(lists, subs, births)
    ensures ListsExact(WithoutSub(lists, s), subs - {s}, births)
  {
    forall i | i in lists ensures ListExact(Without(lists[i], [s]), i, subs - {s}, births) {
      WithoutAscending(lists[i], s);
      WithoutContents(lists[i], [s]);
    }
  }

  lemma {:induction false} LeaveOwned(clients: map<ClientIdx, ConnectedClient>, idx: ClientIdx, u: SubUID, subscriptions: map<SubIdx, (Subscription, ClientIdx)>)
    requires Owned(clients, subscriptions) && idx in clients && u in clients[idx].subs.fwd
    ensures Owned(clients[idx := clients[idx].(subs := clients[idx].subs.RemoveByLeft(u))], subscriptions - {clients[idx].subs.fwd[u]})
  {
    var s := clients[idx].subs.fwd[u];
    assert clients[idx].subs.Inverts();
    forall c, w | c in clients && w in clients[c].subs.fwd && (c != idx || w != u)
      ensures clients[c].subs.fwd[w] != s
    {
      assert OwnedBy(subscriptions, clients[c].subs.fwd[w], c, w);
      assert OwnedBy(subscriptions, s, idx, u);
    }
  }

  lemma {:induction false} LeaveMatch(topicMap: map<string, TopicIdx>, subscriptions: map<SubIdx, (Subscription, ClientIdx)>, births: map<SubIdx, Birth>,
                                      names: seq<string>, s: SubIdx)
    requires MatchExact(topicMap, subscriptions, births) && ListedMatch(subscriptions, births, names)
    ensures MatchExact(topicMap, subscriptions - {s}, births) && ListedMatch(subscriptions - {s}, births, names)
  {}

  lemma {:induction false} LeaveIndexInv(t: TopicTables, g: TopicLog, n: nat, subscriptions: map<SubIdx, (Subscription, ClientIdx)>, births: map<SubIdx, Birth>, s: SubIdx)
    requires TopicInv(t, g, n) && IndexInv(t, subscriptions, births, g)
    ensures var t' := t.(topicSubs := WithoutSub(t.topicSubs, s));
      TopicInv(t', g, n) && IndexInv(t', subscriptions - {s}, births, g)
  {
    var lists := WithoutSub(t.topicSubs, s);
    assert lists.Keys == t.topicSubs.Keys;
    EnrolTopicInv(t, lists, g, n);
    LeaveLists(t.topicSubs, subscriptions.Keys, births, s);
    LeaveMatch(t.topicMap, subscriptions, births, g.names, s);
    assert (subscriptions - {s}).Keys == subscriptions.Keys - {s};
    hide ListsExact, MatchExact, ListedMatch, BirthsOk, TopicInv, WithoutSub;
  }

  lemma {:induction false} LeaveSubInv(s: SubTables, l: Log, accepted: seq<seq<TimestampedValue>>, counters: Counter, k: SubIdx)
    requires BirthsOk(l.births, accepted) && SubInv(s, l, accepted, counters)
    ensures SubInv(SubTables(s.subscriptions - {k}, s.subValues - {k}, s.sendTimes - {k}), l, accepted, counters)
  {
    hide DeliveredTo, BirthsOk;
  }

  lemma {:induction false} LeaveMail(c: ClientTables, c': ClientTables, s: SubTables, births: map<SubIdx, Birth>, topics: set<TopicIdx>, names: seq<string>, k: SubIdx,
                                     idx: ClientIdx, subs: PrimBiMap<SubUID, SubIdx>)
    requires MailInv(c, s, births, topics, names) && idx in c.clients
    requires c' == c.(clients := c.clients[idx := c.clients[idx].(subs := subs)])
    ensures MailInv(c', SubTables(s.subscriptions - {k}, s.subValues - {k}, s.sendTimes - {k}), births, topics, names)
  {
    hide BookedBy, Announced;
  }

  lemma {:induction false} LeaveClients(c: ClientTables, idx: ClientIdx, u: SubUID, n: nat, names: seq<string>, last: map<(ClientIdx, PubUID), string>,
                                        subscriptions: map<SubIdx, (Subscription, ClientIdx)>)
    requires ClientInv(c, n, names, last, subscriptions) && idx in c.clients && u in c.clients[idx].subs.fwd
    ensures ClientInv(c.(clients := c.clients[idx := c.clients[idx].(subs := c.clients[idx].subs.RemoveByLeft(u))]), n, names, last,
                      subscriptions - {c.clients[idx].subs.fwd[u]})
  {
    LeaveOwned(c.clients, idx, u, subscriptions);
    hide Owned;
  }

  lemma {:induction false} UnsubscribeInv(st: State, subuid: i32, c: ClientIdx)
    requires Inv(st)
    ensures Inv(UnsubscribeStep(st, subuid, c).st)
  {
    if c in st.c.clients && AsU32(subuid) in st.c.clients[c].subs.fwd {
      var st' := UnsubscribeStep(st, subuid, c).st;
      var u := AsU32(subuid);
      var s := st.c.clients[c].subs.fwd[u];
      LeaveIndexInv(st.t, st.tlog, st.counters.topicIdx, st.s.subscriptions, st.log.births, s);
      LeaveSubInv(st.s, st.log, st.tlog.accepted, st.counters, s);
      LeaveClients(st.c, c, u, st.counters.clientIdx, st.tlog.names, st.log.lastPublished, st.s.subscriptions);
      LeaveMail(st.c, st'.c, st.s, st.log.births, st.t.topics.Keys, st.tlog.names, s, c, st.c.clients[c].subs.RemoveByLeft(u));
      hide TopicInv, ClientInv, IndexInv, SubInv, MailInv, WithoutSub, BirthsOk;
    }
  }
}
