/** What every reachable state of the server satisfies. Each part names the tables it is about. */
module Invariants {
  import opened Basics
  import opened BiMap
  import opened Protocol
  import opened SubValue
  import opened ServerModel
  import opened Mailbox

  // ---- topic tables ----

  predicate Sized(g: TopicLog, n: nat) {
    n == |g.names| == |g.initial| == |g.releases| == |g.accepted|
  }

  /** Live topics have the names their ids were allocated for. */
  ghost predicate TopicsNamed(topics: map<TopicIdx, Topic>, names: seq<string>) {
    forall i | i in topics :: i < |names| && topics[i].name == names[i]
  }

  /** So do the ids in the name table, which is therefore injective. */
  ghost predicate MapNamed(topicMap: map<string, TopicIdx>, names: seq<string>) {
    forall n | n in topicMap :: topicMap[n] < |names| && names[topicMap[n]] == n
  }

  /** A live ordinary topic is the one its name stands for, so no two of them share a name. */
  ghost predicate OwnNames(topics: map<TopicIdx, Topic>, topicMap: map<string, TopicIdx>) {
    forall i | i in topics && '$' !in topics[i].name :: topics[i].name in topicMap && topicMap[topics[i].name] == i
  }

  /** Every id that is live, named or cached has a subscriber list. */
  ghost predicate HaveLists(topics: map<TopicIdx, Topic>, topicMap: map<string, TopicIdx>,
                            topicValues: map<TopicIdx, TimestampedValue>, topicSubs: map<TopicIdx, seq<SubIdx>>, n: nat) {
    && (forall i | i in topics :: i in topicSubs)
    && (forall name | name in topicMap :: topicMap[name] in topicSubs)
    && (forall i | i in topicValues :: i in topicSubs)
    && (forall i | i in topicSubs :: i < n)
  }

  /** Only ordinary topics accept values, and a cache holds the newest value accepted. */
  ghost predicate Cached(names: seq<string>, accepted: seq<seq<TimestampedValue>>,
                         topicValues: map<TopicIdx, TimestampedValue>, topicSubs: map<TopicIdx, seq<SubIdx>>) {
    && |names| == |accepted|
    && (forall i | 0 <= i < |names| && accepted[i] != [] :: '$' !in names[i])
    && (forall i | i in topicSubs :: i < |accepted| && Lookup(topicValues, i) == Newest(accepted[i]))
  }

  // ---- clients ----

  /** Client records, the identity table and the output channels fit together. */
  ghost predicate Seated(clients: map<ClientIdx, ConnectedClient>, outboxes: map<ClientIdx, seq<Message>>,
                         clientMap: map<Identity, ClientIdx>, n: nat) {
    && SERVER_CLIENT_IDX in clients && SERVER_CLIENT_IDX !in outboxes
    && (forall c | c in clients :: c < n && (clients[c].hasOutput <==> c != SERVER_CLIENT_IDX) && (c != SERVER_CLIENT_IDX ==> c in outboxes))
    && (forall c | c in outboxes :: c < n)
    && (forall id | id in clientMap :: clientMap[id] != SERVER_CLIENT_IDX && clientMap[id] in clients)
    && (forall a, b | a in clientMap && b in clientMap && clientMap[a] == clientMap[b] :: a == b)
  }

  /** Publisher uids lead to ids allocated for the name last published under them. */
  ghost predicate Routed(clients: map<ClientIdx, ConnectedClient>, names: seq<string>, last: map<(ClientIdx, PubUID), string>) {
    forall c, p | c in clients && p in clients[c].pubs.fwd ::
      && clients[c].pubs.fwd[p] < |names|
      && (c, p) in last && names[clients[c].pubs.fwd[p]] == last[(c, p)]
  }

  /** Subscription uids lead to the client's own subscriptions. */
  ghost predicate Owned(clients: map<ClientIdx, ConnectedClient>, subscriptions: map<SubIdx, (Subscription, ClientIdx)>) {
    && (forall c | c in clients :: clients[c].subs.Inverts())
    && (forall c, u | c in clients && u in clients[c].subs.fwd :: OwnedBy(subscriptions, clients[c].subs.fwd[u], c, u))
  }

  ghost predicate OwnedBy(subscriptions: map<SubIdx, (Subscription, ClientIdx)>, s: SubIdx, c: ClientIdx, u: SubUID) {
    s in subscriptions && subscriptions[s].1 == c && AsU32(subscriptions[s].0.subuid) == u
  }

  // ---- subscriptions ----

  /** Three tables have the same subscriptions, all of them with ids handed out before. */
  ghost predicate Tabled(subscriptions: map<SubIdx, (Subscription, ClientIdx)>, subValues: map<SubIdx, StoredSubValue>,
                         sendTimes: map<SubIdx, nat>, births: map<SubIdx, Birth>, n: nat, clients: nat) {
    && subscriptions.Keys == subValues.Keys == sendTimes.Keys
    && (forall s | s in subscriptions :: s in births && subscriptions[s].1 < clients)
    && (forall s | s in births :: s < n)
  }

  ghost predicate BirthOk(b: Birth, accepted: seq<seq<TimestampedValue>>) {
    && |b.seen| <= |accepted|
    && (forall i | 0 <= i < |b.seen| :: b.seen[i] <= accepted[i])
    && (forall i | i in b.listed :: i < |b.seen| && Lookup(b.cached, i) == Newest(b.seen[i]))
    && (forall i | i in b.cached :: i in b.listed)
  }

  ghost predicate BirthsOk(births: map<SubIdx, Birth>, accepted: seq<seq<TimestampedValue>>) {
    forall s | s in births :: BirthOk(births[s], accepted)
  }

  predicate Ascending(s: seq<SubIdx>) {
    forall j, k :: 0 <= j < k < |s| ==> s[j] < s[k]
  }

  /** A topic's list holds, in ascending order, the present subscriptions once listed for it. */
  ghost predicate ListExact(list: seq<SubIdx>, i: TopicIdx, subs: set<SubIdx>, births: map<SubIdx, Birth>) {
    && Ascending(list)
    && (forall s :: s in list <==> s in subs && s in births && i in births[s].listed)
  }

  ghost predicate ListsExact(topicSubs: map<TopicIdx, seq<SubIdx>>, subs: set<SubIdx>, births: map<SubIdx, Birth>) {
    forall i | i in topicSubs :: ListExact(topicSubs[i], i, subs, births)
  }

  /** A subscription was listed for a name still in use iff it matches and the id is older than it. */
  ghost predicate MatchExact(topicMap: map<string, TopicIdx>, subscriptions: map<SubIdx, (Subscription, ClientIdx)>, births: map<SubIdx, Birth>) {
    forall s, n | s in subscriptions && s in births && n in topicMap ::
      topicMap[n] in births[s].listed <==> topicMap[n] < |births[s].seen| && subscriptions[s].0.CaresAbout(n)
  }

  ghost predicate ListedMatch(subscriptions: map<SubIdx, (Subscription, ClientIdx)>, births: map<SubIdx, Birth>, names: seq<string>) {
    forall s, i {:trigger i in births[s].listed} | s in subscriptions && s in births && i in births[s].listed ::
      i < |names| && subscriptions[s].0.CaresAbout(names[i])
  }

  // ---- delivery ----

  /** What a subscription got for a topic: the values sent, then the values still waiting. */
  function Received(drained: map<SubIdx, map<TopicIdx, seq<TimestampedValue>>>, store: StoredSubValue, s: SubIdx, i: TopicIdx): seq<TimestampedValue> {
    GetOr(GetOr(drained, s, map[]), i, []) + store.Pending(i)
  }

  /** An `All` store loses nothing; a `One` store keeps the last value. */
  predicate Carries(all: bool, received: seq<TimestampedValue>, sent: seq<TimestampedValue>) {
    if all then received == sent
    else
      && (received == [] <==> sent == [])
      && (sent != [] ==> received[|received| - 1] == sent[|sent| - 1])
  }

  /** What a topic accepted since the subscription was made. */
  function Since(b: Birth, accepted: seq<seq<TimestampedValue>>, i: TopicIdx): seq<TimestampedValue>
    requires BirthOk(b, accepted) && i in b.listed
  {
    accepted[i][|b.seen[i]|..]
  }

  ghost predicate DeliveredTo(store: StoredSubValue, sub: Subscription, s: SubIdx, b: Birth,
                              drained: map<SubIdx, map<TopicIdx, seq<TimestampedValue>>>, accepted: seq<seq<TimestampedValue>>)
    requires BirthOk(b, accepted)
  {
    && (store.All? <==> sub.WantsAll())
    && (forall i | i in b.listed :: Carries(store.All?, Received(drained, store, s, i), Since(b, accepted, i)))
    && (forall i | i !in b.listed :: Received(drained, store, s, i) == [] && i !in store.Topics())
  }

  ghost predicate Delivered(subscriptions: map<SubIdx, (Subscription, ClientIdx)>, subValues: map<SubIdx, StoredSubValue>, births: map<SubIdx, Birth>,
                            drained: map<SubIdx, map<TopicIdx, seq<TimestampedValue>>>, accepted: seq<seq<TimestampedValue>>)
    requires BirthsOk(births, accepted)
  {
    forall s | s in subscriptions && s in subValues && s in births ::
      DeliveredTo(subValues[s], subscriptions[s].0, s, births[s], drained, accepted)
  }

  // ---- output channels ----

  ghost predicate AllClean(outboxes: map<ClientIdx, seq<Message>>, names: seq<string>) {
    forall c | c in outboxes :: Clean(outboxes[c], names)
  }

  /** A client was told about every live topic one of its subscriptions is listed for. */
  ghost predicate Forewarned(outboxes: map<ClientIdx, seq<Message>>, subscriptions: map<SubIdx, (Subscription, ClientIdx)>,
                             births: map<SubIdx, Birth>, topics: set<TopicIdx>) {
    forall s, i | s in subscriptions && s in births && subscriptions[s].1 in outboxes && i in births[s].listed && i in topics ::
      Announced(outboxes[subscriptions[s].1], i)
  }

  /** And about every topic with values waiting for it. */
  ghost predicate Expected(outboxes: map<ClientIdx, seq<Message>>, subscriptions: map<SubIdx, (Subscription, ClientIdx)>,
                           subValues: map<SubIdx, StoredSubValue>) {
    forall s, i | s in subscriptions && s in subValues && subscriptions[s].1 in outboxes && i in subValues[s].Topics() ::
      Announced(outboxes[subscriptions[s].1], i)
  }

  /** The record of announced topics is backed by announcements; a publish is answered once. */
  ghost predicate BookedBy(announced: set<TopicIdx>, outbox: seq<Message>) {
    && (forall i | i in announced :: Announced(outbox, i))
    && (forall i | Replies(outbox, i) > 0 :: i in announced)
  }

  ghost predicate Booked(clients: map<ClientIdx, ConnectedClient>, outboxes: map<ClientIdx, seq<Message>>) {
    && (forall c, i | c in outboxes :: Replies(outboxes[c], i) <= 1)
    && (forall c | c in clients && c in outboxes :: BookedBy(clients[c].announced, outboxes[c]))
  }

  // ---- together ----

  ghost predicate TopicInv(t: TopicTables, g: TopicLog, n: nat) {
    && Sized(g, n)
    && TopicsNamed(t.topics, g.names)
    && MapNamed(t.topicMap, g.names)
    && HaveLists(t.topics, t.topicMap, t.topicValues, t.topicSubs, n)
    && Cached(g.names, g.accepted, t.topicValues, t.topicSubs)
  }

  ghost predicate ClientInv(c: ClientTables, n: nat, names: seq<string>, last: map<(ClientIdx, PubUID), string>,
                            subscriptions: map<SubIdx, (Subscription, ClientIdx)>) {
    && Seated(c.clients, c.outboxes, c.clientMap, n)
    && Routed(c.clients, names, last)
    && Owned(c.clients, subscriptions)
  }

  /** The subscriber index is exact. */
  ghost predicate IndexInv(t: TopicTables, subscriptions: map<SubIdx, (Subscription, ClientIdx)>, births: map<SubIdx, Birth>, g: TopicLog) {
    && BirthsOk(births, g.accepted)
    && ListsExact(t.topicSubs, subscriptions.Keys, births)
    && MatchExact(t.topicMap, subscriptions, births)
    && ListedMatch(subscriptions, births, g.names)
  }

  ghost predicate SubInv(s: SubTables, l: Log, accepted: seq<seq<TimestampedValue>>, counters: Counter)
    requires BirthsOk(l.births, accepted)
  {
    && Tabled(s.subscriptions, s.subValues, s.sendTimes, l.births, counters.subIdx, counters.clientIdx)
    && Delivered(s.subscriptions, s.subValues, l.births, l.drained, accepted)
  }

  ghost predicate MailInv(c: ClientTables, s: SubTables, births: map<SubIdx, Birth>, topics: set<TopicIdx>, names: seq<string>) {
    && AllClean(c.outboxes, names)
    && Forewarned(c.outboxes, s.subscriptions, births, topics)
    && Expected(c.outboxes, s.subscriptions, s.subValues)
    && Booked(c.clients, c.outboxes)
  }

  ghost predicate Inv(st: State) {
    && TopicInv(st.t, st.tlog, st.counters.topicIdx)
    && OwnNames(st.t.topics, st.t.topicMap)
    && ClientInv(st.c, st.counters.clientIdx, st.tlog.names, st.log.lastPublished, st.s.subscriptions)
    && IndexInv(st.t, st.s.subscriptions, st.log.births, st.tlog)
    && SubInv(st.s, st.log, st.tlog.accepted, st.counters)
    && MailInv(st.c, st.s, st.log.births, st.t.topics.Keys, st.tlog.names)
  }
}
