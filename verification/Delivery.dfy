/** Values over whole runs: none is lost, doubled or reordered, and caches agree with what subscribers got. */
module Delivery {
  import opened Basics
  import opened Protocol
  import opened SubValue
  import opened ServerModel
  import opened Invariants
  import opened Subscribing
  import opened ValueSteps
  import opened Handlers
  import opened Growth
  import opened History

  // ---- the newest of a sequence of values ----

  /** `Newest` picks the first of the values with the greatest timestamp. */
  ghost predicate FirstNewest(vs: seq<TimestampedValue>, k: int) {
    && 0 <= k < |vs|
    && (forall j | 0 <= j < k :: vs[j].timestamp < vs[k].timestamp)
    && (forall j | k < j < |vs| :: vs[j].timestamp <= vs[k].timestamp)
  }

  lemma {:induction false} NewestIsFirst(vs: seq<TimestampedValue>, k: nat)
    requires FirstNewest(vs, k)
    ensures Newest(vs) == Some(vs[k])
  {
    var front, last := vs[..|vs| - 1], vs[|vs| - 1];
    if k < |front| {
      assert forall j | 0 <= j < |front| :: vs[j] == front[j];
      NewestIsFirst(front, k);
    } else if front != [] {
      var j := SomeFirstNewest(front);
      NewestIsFirst(front, j);
      assert vs[j] == front[j];
    }
  }

  /** There is such a value. */
  lemma {:induction false} SomeFirstNewest(vs: seq<TimestampedValue>) returns (k: nat)
    requires vs != []
    ensures FirstNewest(vs, k)
  {
    var front, last := vs[..|vs| - 1], vs[|vs| - 1];
    if front == [] {
      k := 0;
    } else {
      k := SomeFirstNewest(front);
      assert forall j | 0 <= j < |front| :: vs[j] == front[j];
      k := if front[k].timestamp < last.timestamp then |front| else k;
    }
  }

  lemma {:induction false} NewestOfNone(vs: seq<TimestampedValue>)
    ensures Newest(vs).None? <==> vs == []
  {}

  /** A prefix may be replaced by its newest value. */
  lemma {:induction false} NewestOfCached(before: seq<TimestampedValue>, cached: seq<TimestampedValue>, since: seq<TimestampedValue>)
    requires Newest(cached) == Newest(before)
    ensures Newest(cached + since) == Newest(before + since)
  {
    if since == [] {
      assert cached + since == cached && before + since == before;
    } else {
      var front, last := since[..|since| - 1], since[|since| - 1];
      NewestOfCached(before, cached, front);
      NewestAppend(cached + front, last);
      NewestAppend(before + front, last);
      assert cached + since == cached + front + [last] && before + since == before + front + [last];
    }
  }

  predicate Increasing(vs: seq<TimestampedValue>) {
    forall j, k :: 0 <= j < k < |vs| ==> vs[j].timestamp < vs[k].timestamp
  }

  lemma {:induction false} NewestIncreasing(vs: seq<TimestampedValue>)
    requires Increasing(vs) && vs != []
    ensures Newest(vs) == Some(vs[|vs| - 1])
  {
    NewestIsFirst(vs, |vs| - 1);
  }

  // ---- how a subscription begins ----

  predicate Listed(t: TopicTables, s: SubIdx, i: TopicIdx) {
    i in t.topicSubs && s in t.topicSubs[i]
  }

  /** Operation `k` of the run makes a subscription. */
  predicate Subscribes(states: seq<State>, ops: seq<Op>, k: nat) {
    k < |ops| < |states| && ops[k].OpSubscribe? && ops[k].client in states[k].c.clients
  }

  /** The cached value a new subscription is sent for a topic, if there is one. */
  function CachedFor(t: TopicTables, i: TopicIdx): seq<TimestampedValue> {
    if i in t.topicValues then [t.topicValues[i]] else []
  }

  lemma {:induction false} SubscribeBirth(st: State, sub: Subscription, c: ClientIdx, order: seq<string>, now: nat)
    requires Inv(st) && Enumerates(order, st.t.topicMap.Keys) && c in st.c.clients
    ensures var st', s := SubscribeStep(st, sub, c, order, now).st, st.counters.subIdx;
      && s in st'.s.subscriptions && st'.s.subscriptions[s] == (sub, c)
      && s in st'.log.births && st'.log.births[s].seen == st.tlog.accepted
      && s < st'.counters.subIdx
      && (forall i :: DrainedOf(st'.log, s, i) == [])
      && (forall i :: i in st'.log.births[s].listed <==> Listed(st'.t, s, i))
  {
    var s := st.counters.subIdx;
    var found := Matches(st.t.topicMap, sub, order);
    var v := VisitAll(st.t, s, found);
    SubscribeShape(st, sub, c, order, now);
    SubscribeVisits(st, sub, order);
    NotYetListed(st);
    hide Inv, SubscribeStep, VisitAll, Matches, Ids, Welcomed, NewStore, AnnouncesFound, SendsCached, Finds;
  }

  /** The next subscription id occurs in no list. */
  lemma {:induction false} NotYetListed(st: State)
    requires Inv(st)
    ensures forall i | i in st.t.topicSubs :: st.counters.subIdx !in st.t.topicSubs[i]
  {
    hide TopicInv, ClientInv, MailInv, Delivered;
    forall i | i in st.t.topicSubs ensures st.counters.subIdx !in st.t.topicSubs[i] {
      assert ListExact(st.t.topicSubs[i], i, st.s.subscriptions.Keys, st.log.births);
    }
  }

  lemma {:induction false} BirthFacts(states: seq<State>, ops: seq<Op>, k: nat)
    requires IsRun(states, ops) && Subscribes(states, ops, k)
    ensures var st', s := states[k + 1], states[k].counters.subIdx;
      && s in st'.s.subscriptions && st'.s.subscriptions[s] == (ops[k].sub, ops[k].client)
      && s in st'.log.births && st'.log.births[s].seen == states[k].tlog.accepted
      && s < st'.counters.subIdx
      && (forall i :: DrainedOf(st'.log, s, i) == [])
      && (forall i :: i in st'.log.births[s].listed <==> Listed(st'.t, s, i))
  {
    RunInv(states, ops, k);
    hide Inv, Init, SubscribeStep, DrainedOf, Listed;
    SubscribeBirth(states[k], ops[k].sub, ops[k].client, ops[k].nameOrder, ops[k].now);
  }

  // ---- conservation ----

  /** The values of topic `i` that reached subscription `s` since operation `lo`: sent, then waiting. */
  function ReceivedIn(states: seq<State>, ops: seq<Op>, s: SubIdx, i: TopicIdx, lo: nat, hi: nat): seq<TimestampedValue>
    requires |states| == |ops| + 1 && lo <= hi <= |ops| && s in states[hi].s.subValues
  {
    DrainedIn(states, ops, s, i, lo, hi) + states[hi].s.subValues[s].Pending(i)
  }

  lemma {:induction false} StillDelivered(st: State, s: SubIdx)
    requires Inv(st) && s in st.s.subscriptions
    ensures s in st.s.subValues && s in st.log.births && BirthOk(st.log.births[s], st.tlog.accepted)
    ensures DeliveredTo(st.s.subValues[s], st.s.subscriptions[s].0, s, st.log.births[s], st.log.drained, st.tlog.accepted)
  {
    hide TopicInv, ClientInv, MailInv, ListsExact, MatchExact, ListedMatch;
  }

  lemma {:induction false} SameSubscription(states: seq<State>, ops: seq<Op>, s: SubIdx, lo: nat, hi: nat)
    requires IsRun(states, ops) && lo <= hi <= |ops|
    requires s in states[hi].s.subscriptions && s < states[lo].counters.subIdx
    ensures s in states[lo].s.subscriptions && states[lo].s.subscriptions[s] == states[hi].s.subscriptions[s]
  {
    hide Inv, Init, Step, Enabled;
    RunLater(states, ops, lo, hi);
  }

  /** What was accepted since the subscription was made, according to the log and to the history. */
  lemma {:induction false} SinceAccepted(states: seq<State>, ops: seq<Op>, k: nat, j: nat, i: TopicIdx)
    requires IsRun(states, ops) && Subscribes(states, ops, k) && k < j <= |ops|
    requires states[k].counters.subIdx in states[k + 1].log.births
    requires var b := states[k + 1].log.births[states[k].counters.subIdx];
      && b.seen == states[k].tlog.accepted
      && BirthOk(b, states[j].tlog.accepted) && i in b.listed
    ensures Since(states[k + 1].log.births[states[k].counters.subIdx], states[j].tlog.accepted, i) == AcceptedIn(states, ops, i, k + 1, j)
  {
    var b := states[k + 1].log.births[states[k].counters.subIdx];
    hide Inv, Init, Step, Enabled, AcceptedIn;
    SubscribeTlog(states, ops, k);
    RunAccepts(states, ops, i, k + 1, j);
    assert AcceptedOf(states[j].tlog, i) == b.seen[i] + AcceptedIn(states, ops, i, k + 1, j);
  }

  lemma {:induction false} SubscribeTlog(states: seq<State>, ops: seq<Op>, k: nat)
    requires IsRun(states, ops) && k < |ops| && ops[k].OpSubscribe?
    ensures states[k + 1].tlog == states[k].tlog
  {
    hide SubscribeStep;
    SubscribeLog(states[k], ops[k].sub, ops[k].client, ops[k].nameOrder, ops[k].now);
  }

  /** Exactly once, in order. As long as a subscription exists, an `All` one has been sent, or has waiting, just the
      values accepted since it was made for the topics that listed it, a `One` one the last of them, and neither anything else. */
  lemma {:induction false} Conservation(states: seq<State>, ops: seq<Op>, k: nat, j: nat, i: TopicIdx)
    requires IsRun(states, ops) && Subscribes(states, ops, k) && k < j <= |ops|
    requires states[k].counters.subIdx in states[j].s.subscriptions
    ensures var s := states[k].counters.subIdx;
      && s in states[j].s.subValues
      && var received := ReceivedIn(states, ops, s, i, k + 1, j);
         if Listed(states[k + 1].t, s, i) then Carries(ops[k].sub.WantsAll(), received, AcceptedIn(states, ops, i, k + 1, j))
         else received == []
  {
    hide Inv, Init, Step, Enabled, Listed, Carries, ReceivedIn, DrainedOf, AcceptedIn, BirthOk, Since;
    var s := states[k].counters.subIdx;
    RunInv(states, ops, j);
    BirthFacts(states, ops, k);
    SameSubscription(states, ops, s, k + 1, j);
    BirthsStay(states, ops, s, k + 1, j);
    StillDelivered(states[j], s);
    RunDrains(states, ops, s, i, k + 1, j);
    ReceivedByHistory(states, ops, s, i, k + 1, j);
    if Listed(states[k + 1].t, s, i) {
      SinceAccepted(states, ops, k, j, i);
    }
    hide IsRun, Subscribes;
  }

  lemma {:induction false} ReceivedByHistory(states: seq<State>, ops: seq<Op>, s: SubIdx, i: TopicIdx, lo: nat, hi: nat)
    requires |states| == |ops| + 1 && lo <= hi <= |ops| && s in states[hi].s.subValues
    requires DrainedOf(states[hi].log, s, i) == DrainedIn(states, ops, s, i, lo, hi)
    ensures Received(states[hi].log.drained, states[hi].s.subValues[s], s, i) == ReceivedIn(states, ops, s, i, lo, hi)
  {
    hide DrainedIn;
  }

  // ---- caches ----

  /** A cache holds the newest of all values its topic accepted. */
  lemma {:induction false} CacheIsNewest(states: seq<State>, ops: seq<Op>, j: nat, i: TopicIdx)
    requires IsRun(states, ops) && j <= |ops| && i in states[j].t.topicSubs
    ensures Lookup(states[j].t.topicValues, i) == Newest(AcceptedIn(states, ops, i, 0, j))
  {
    RunInv(states, ops, j);
    RunAcceptsAll(states, ops, i, j);
    assert TopicInv(states[j].t, states[j].tlog, states[j].counters.topicIdx);
    hide IsRun, Inv, AcceptedIn, Newest;
  }

  lemma {:induction false} LiveHasList(st: State, i: TopicIdx)
    requires Inv(st) && i in st.t.topics
    ensures i in st.t.topicSubs
  {
    hide Cached, MapNamed, TopicsNamed, ClientInv, IndexInv, SubInv, MailInv;
  }

  lemma {:induction false} AcceptedSplit(states: seq<State>, ops: seq<Op>, i: TopicIdx, m: nat, j: nat)
    requires |states| == |ops| + 1 && m <= j <= |ops|
    ensures AcceptedIn(states, ops, i, 0, j) == AcceptedIn(states, ops, i, 0, m) + AcceptedIn(states, ops, i, m, j)
    decreases j
  {
    if m < j {
      AcceptedSplit(states, ops, i, m, j - 1);
    }
  }

  lemma {:induction false} SubscribeAcceptsNothing(states: seq<State>, ops: seq<Op>, k: nat, i: TopicIdx)
    requires |states| == |ops| + 1 && k < |ops| && ops[k].OpSubscribe?
    ensures AcceptedIn(states, ops, i, k, k + 1) == []
  {
    assert AcceptedIn(states, ops, i, k, k) == [];
  }

  lemma {:induction false} AcceptedAround(states: seq<State>, ops: seq<Op>, k: nat, j: nat, i: TopicIdx)
    requires |states| == |ops| + 1 && k < j <= |ops| && ops[k].OpSubscribe?
    ensures AcceptedIn(states, ops, i, 0, j) == AcceptedIn(states, ops, i, 0, k) + AcceptedIn(states, ops, i, k + 1, j)
  {
    hide AcceptedIn;
    AcceptedSplit(states, ops, i, k, k + 1);
    AcceptedSplit(states, ops, i, k + 1, j);
    SubscribeAcceptsNothing(states, ops, k, i);
  }

  /** What a new subscription is listed for had a list before. */
  lemma {:induction false} ListedBefore(st: State, sub: Subscription, c: ClientIdx, order: seq<string>, now: nat, i: TopicIdx)
    requires Inv(st) && Enumerates(order, st.t.topicMap.Keys) && c in st.c.clients
    requires Listed(SubscribeStep(st, sub, c, order, now).st.t, st.counters.subIdx, i)
    ensures i in st.t.topicSubs
  {
    SubscribeShape(st, sub, c, order, now);
    SubscribeVisits(st, sub, order);
    hide Inv, SubscribeStep, VisitAll, Matches, Ids, Welcomed, NewStore, BirthOf, AnnouncesFound, SendsCached, Finds;
  }

  /** The cached value sent at first is the newest of what was accepted before. */
  lemma {:induction false} CacheAtBirth(states: seq<State>, ops: seq<Op>, k: nat, i: TopicIdx)
    requires IsRun(states, ops) && Subscribes(states, ops, k) && Listed(states[k + 1].t, states[k].counters.subIdx, i)
    ensures Newest(AcceptedIn(states, ops, i, 0, k)) == Lookup(states[k].t.topicValues, i)
  {
    RunInv(states, ops, k);
    hide Inv, Init, SubscribeStep, Listed, Newest, AcceptedIn;
    ListedBefore(states[k], ops[k].sub, ops[k].client, ops[k].nameOrder, ops[k].now, i);
    CacheIsNewest(states, ops, k, i);
  }

  lemma {:induction false} LiveCache(states: seq<State>, ops: seq<Op>, j: nat, i: TopicIdx)
    requires IsRun(states, ops) && j <= |ops| && i in states[j].t.topics
    ensures Lookup(states[j].t.topicValues, i) == Newest(AcceptedIn(states, ops, i, 0, j))
  {
    hide Inv, Init, Step, Enabled, Newest, AcceptedIn;
    RunInv(states, ops, j);
    LiveHasList(states[j], i);
    CacheIsNewest(states, ops, j, i);
  }

  /** An `All` subscriber that keeps the newest of the cached value it was sent at first and of all values
      that reached it since has what the server has. */
  lemma {:induction false} NewestWins(states: seq<State>, ops: seq<Op>, k: nat, j: nat, i: TopicIdx)
    requires IsRun(states, ops) && Subscribes(states, ops, k) && k < j <= |ops| && ops[k].sub.WantsAll()
    requires states[k].counters.subIdx in states[j].s.subscriptions
    requires i in states[j].t.topics && Listed(states[k + 1].t, states[k].counters.subIdx, i)
    ensures states[k].counters.subIdx in states[j].s.subValues
    ensures Newest(CachedFor(states[k].t, i) + ReceivedIn(states, ops, states[k].counters.subIdx, i, k + 1, j)) == Lookup(states[j].t.topicValues, i)
  {
    Conservation(states, ops, k, j, i);
    CacheAtBirth(states, ops, k, i);
    LiveCache(states, ops, j, i);
    AcceptedAround(states, ops, k, j, i);
    CachedIsNewest(states[k].t, i);
    NewestOfCached(AcceptedIn(states, ops, i, 0, k), CachedFor(states[k].t, i), AcceptedIn(states, ops, i, k + 1, j));
    hide IsRun, Newest, AcceptedIn, ReceivedIn, Listed, CachedFor;
  }

  lemma {:induction false} CachedIsNewest(t: TopicTables, i: TopicIdx)
    ensures Newest(CachedFor(t, i)) == Lookup(t.topicValues, i)
  {}

  function Last(vs: seq<TimestampedValue>): Option<TimestampedValue> {
    if vs == [] then None else Some(vs[|vs| - 1])
  }

  lemma {:induction false} LastOfCached(before: seq<TimestampedValue>, since: seq<TimestampedValue>, cached: seq<TimestampedValue>, received: seq<TimestampedValue>, all: bool)
    requires Increasing(before + since) && Carries(all, received, since)
    requires cached == if Newest(before).Some? then [Newest(before).value] else []
    ensures Last(cached + received) == Newest(before + since)
  {
    hide Newest;
    if since == [] {
      assert before + since == before && cached + received == cached;
    } else {
      NewestIncreasing(before + since);
    }
  }

  /** A `One` subscriber ends with the server's value too, provided timestamps on the topic keep increasing. */
  lemma {:induction false} LatestWins(states: seq<State>, ops: seq<Op>, k: nat, j: nat, i: TopicIdx)
    requires IsRun(states, ops) && Subscribes(states, ops, k) && k < j <= |ops|
    requires states[k].counters.subIdx in states[j].s.subscriptions
    requires i in states[j].t.topics && Listed(states[k + 1].t, states[k].counters.subIdx, i)
    requires Increasing(AcceptedIn(states, ops, i, 0, j))
    ensures states[k].counters.subIdx in states[j].s.subValues
    ensures Last(CachedFor(states[k].t, i) + ReceivedIn(states, ops, states[k].counters.subIdx, i, k + 1, j)) == Lookup(states[j].t.topicValues, i)
  {
    Conservation(states, ops, k, j, i);
    CacheAtBirth(states, ops, k, i);
    LiveCache(states, ops, j, i);
    AcceptedAround(states, ops, k, j, i);
    LastOfCached(AcceptedIn(states, ops, i, 0, k), AcceptedIn(states, ops, i, k + 1, j), CachedFor(states[k].t, i),
                 ReceivedIn(states, ops, states[k].counters.subIdx, i, k + 1, j), ops[k].sub.WantsAll());
    hide IsRun, Newest, AcceptedIn, ReceivedIn, Listed, Carries, Increasing;
  }
}
