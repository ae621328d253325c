/** What exactly goes into the output channels when a client subscribes and when pending values are sent. */
module Mailing {
  import opened Basics
  import opened Protocol
  import opened SubValue
  import opened ServerModel
  import opened Mailbox
  import opened Invariants
  import opened Subscribing
  import opened ValueSteps
  import opened Handlers
  import opened History
  import opened Delivery

  /** The values for topic `i` in a binary message. */
  function ValuesOf(values: seq<(TopicIdx, TimestampedValue)>, i: TopicIdx): seq<TimestampedValue> {
    if values == [] then []
    else
      var last := values[|values| - 1];
      ValuesOf(values[..|values| - 1], i) + if last.0 == i then [last.1] else []
  }

  /** The values for topic `i` in a stretch of a channel. */
  function SentIn(ms: seq<Message>, i: TopicIdx): seq<TimestampedValue> {
    if ms == [] then []
    else
      var last := ms[|ms| - 1];
      SentIn(ms[..|ms| - 1], i) + if last.Binary? then ValuesOf(last.values, i) else []
  }

  lemma {:induction false} ValuesOfAppend(values: seq<(TopicIdx, TimestampedValue)>, more: seq<(TopicIdx, TimestampedValue)>, i: TopicIdx)
    ensures ValuesOf(values + more, i) == ValuesOf(values, i) + ValuesOf(more, i)
  {
    if more == [] {
      assert values + more == values;
    } else {
      var front, last := more[..|more| - 1], more[|more| - 1];
      ValuesOfAppend(values, front, i);
      assert (values + more)[..|values + more| - 1] == values + front;
    }
  }

  lemma {:induction false} SentInAppend(ms: seq<Message>, more: seq<Message>, i: TopicIdx)
    ensures SentIn(ms + more, i) == SentIn(ms, i) + SentIn(more, i)
  {
    if more == [] {
      assert ms + more == ms;
    } else {
      var front, last := more[..|more| - 1], more[|more| - 1];
      SentInAppend(ms, front, i);
      assert (ms + more)[..|ms + more| - 1] == ms + front;
    }
  }

  // ---- subscribing ----

  lemma {:induction false} SendsOneMore(t: TopicTables, front: seq<(TopicIdx, string)>, last: (TopicIdx, string), values: seq<(TopicIdx, TimestampedValue)>, i: TopicIdx)
    requires last.0 !in Ids(front) && ValuesOf(values, i) == if i in Ids(front) then CachedFor(t, i) else []
    ensures ValuesOf(values + WithId(last.0, CachedFor(t, last.0)), i) == if i in Ids(front + [last]) then CachedFor(t, i) else []
  {
    hide Ids, ValuesOf, WithId, CachedFor;
    IdsOfAppend(front, last);
    ValuesOfAppend(values, WithId(last.0, CachedFor(t, last.0)), i);
    CachedWithId(last.0, CachedFor(t, last.0), i);
  }

  /** Each topic found contributes its cached value once. */
  lemma {:induction false} VisitAllSends(t: TopicTables, s: SubIdx, found: seq<(TopicIdx, string)>, i: TopicIdx)
    requires DistinctIds(found) && VisitAll(t, s, found).ok
    ensures ValuesOf(VisitAll(t, s, found).values, i) == if i in Ids(found) then CachedFor(t, i) else []
  {
    hide VisitTopic, ValuesOf, WithId, CachedFor;
    if found == [] {
      assert Ids(found) == {};
      NoValues(i);
    } else {
      var front, last := found[..|found| - 1], found[|found| - 1];
      assert last.0 !in Ids(front) && DistinctIds(front) by { hide VisitAll; }
      assert found == front + [last];
      hide Ids, DistinctIds;
      var v := VisitAll(t, s, front);
      assert VisitAll(t, s, found) == VisitTopic(t, s, v, last.0, last.1);
      VisitTopicSends(t, s, v, last.0, last.1);
      hide VisitAll;
      VisitAllSends(t, s, front, i);
      SendsOneMore(t, front, last, v.values, i);
    }
  }

  lemma {:induction false} NoValues(i: TopicIdx)
    ensures ValuesOf([], i) == []
  {}

  lemma {:induction false} VisitTopicSends(t: TopicTables, s: SubIdx, v: Visit, i: TopicIdx, name: string)
    requires VisitTopic(t, s, v, i, name).ok
    ensures v.ok && VisitTopic(t, s, v, i, name).values == v.values + WithId(i, CachedFor(t, i))
  {}

  lemma {:induction false} CachedWithId(k: TopicIdx, vs: seq<TimestampedValue>, i: TopicIdx)
    ensures ValuesOf(WithId(k, vs), i) == if k == i then vs else []
  {
    if vs != [] {
      CachedWithId(k, vs[..|vs| - 1], i);
      assert WithId(k, vs)[..|vs| - 1] == WithId(k, vs[..|vs| - 1]);
    }
  }

  /** A successful subscription puts two messages into the channel: announcements, then exactly the cached values
      of the topics that list it. */
  lemma {:induction false} SubscribeSends(st: State, sub: Subscription, c: ClientIdx, order: seq<string>, now: nat, i: TopicIdx)
    requires Inv(st) && Enumerates(order, st.t.topicMap.Keys) && c in st.c.clients && c in st.c.outboxes
    ensures var st', s := SubscribeStep(st, sub, c, order, now).st, st.counters.subIdx;
      && c in st'.c.outboxes && |st'.c.outboxes[c]| == |st.c.outboxes[c]| + 2 && st.c.outboxes[c] <= st'.c.outboxes[c]
      && st'.c.outboxes[c][|st.c.outboxes[c]|].Text?
      && SentIn(st'.c.outboxes[c], i) == SentIn(st.c.outboxes[c], i) + if Listed(st'.t, s, i) then CachedFor(st.t, i) else []
  {
    var s := st.counters.subIdx;
    var found := Matches(st.t.topicMap, sub, order);
    var v := VisitAll(st.t, s, found);
    SubscribeShape(st, sub, c, order, now);
    SubscribeVisits(st, sub, order);
    NotYetListed(st);
    SeatedPart(st);
    WelcomedParts(st.c, c, st.counters.clientIdx, sub, s, v);
    hide Inv, SubscribeStep, VisitAll, Matches, Ids, Welcomed, NewStore, BirthOf, AnnouncesFound, SendsCached;
    VisitAllSends(st.t, s, found, i);
    var before := st.c.outboxes[c];
    SentInAppend(before, [Text(v.announces), Binary(v.values)], i);
    SentInWelcome(v, i);
    hide SentIn, ValuesOf, CachedFor, Finds;
  }

  lemma {:induction false} SentInWelcome(v: Visit, i: TopicIdx)
    ensures SentIn([Text(v.announces), Binary(v.values)], i) == ValuesOf(v.values, i)
  {
    var text, values := Text(v.announces), Binary(v.values);
    assert [text, values][..1] == [text] && [text][..0] == [];
    assert SentIn([text], i) == SentIn([], i) == [];
    hide ValuesOf;
  }

  lemma {:induction false} SeatedPart(st: State)
    requires Inv(st)
    ensures Seated(st.c.clients, st.c.outboxes, st.c.clientMap, st.counters.clientIdx)
  {
    hide TopicInv, IndexInv, SubInv, MailInv;
  }

  // ---- sending out ----

  /** The messages of one store hold, for each topic, what was waiting there, in order. */
  lemma {:induction false} BatchesSend(taken: map<TopicIdx, seq<TimestampedValue>>, order: seq<TopicIdx>, i: TopicIdx)
    requires Distinct(order)
    ensures SentIn(Batches(taken, order), i) == if i in order then GetOr(taken, i, []) else []
  {
    if order != [] {
      var front, last := order[..|order| - 1], order[|order| - 1];
      BatchesSend(taken, front, i);
      var m := Binary(WithId(last, GetOr(taken, last, [])));
      SentInAppend(Batches(taken, front), [m], i);
      assert [m][..0] == [];
      CachedWithId(last, GetOr(taken, last, []), i);
      assert i in order <==> i in front || i == last;
      hide ValuesOf, WithId;
    }
  }

  /** The messages a pass sends to client `c`. */
  function MailFor(s: SubTables, picks: seq<Pick>, c: ClientIdx): seq<Message>
    requires forall p | p in picks :: CanPick(s, p)
  {
    if picks == [] then []
    else
      var last := picks[|picks| - 1];
      assert last in picks && CanPick(s, last);
      MailFor(s, picks[..|picks| - 1], c) + if s.subscriptions[last.s].1 == c then Batches(s.subValues[last.s].Taken(), last.order) else []
  }

  /** The values of topic `i` waiting for the subscriptions of client `c` that a pass visits. */
  function WaitingFor(s: SubTables, picks: seq<Pick>, c: ClientIdx, i: TopicIdx): seq<TimestampedValue>
    requires forall p | p in picks :: CanPick(s, p)
  {
    if picks == [] then []
    else
      var last := picks[|picks| - 1];
      assert last in picks && CanPick(s, last);
      WaitingFor(s, picks[..|picks| - 1], c, i) + if s.subscriptions[last.s].1 == c then s.subValues[last.s].Pending(i) else []
  }

  lemma {:induction false} MailCarries(s: SubTables, picks: seq<Pick>, c: ClientIdx, i: TopicIdx)
    requires forall p | p in picks :: CanPick(s, p) && ValidPick(s, p)
    ensures SentIn(MailFor(s, picks, c), i) == WaitingFor(s, picks, c, i)
  {
    if picks != [] {
      var front, last := picks[..|picks| - 1], picks[|picks| - 1];
      assert forall p | p in front :: p in picks;
      assert last in picks && ValidPick(s, last);
      MailCarries(s, front, c, i);
      var store := s.subValues[last.s];
      StoreSends(store, last.order, i);
      hide SentIn, Batches, ValidPick;
      SentInAppend(MailFor(s, front, c), Batches(store.Taken(), last.order), i);
      Associate(MailFor(s, front, c), MailFor(s, front, c), []);
    }
  }

  lemma {:induction false} StoreSends(store: StoredSubValue, order: seq<TopicIdx>, i: TopicIdx)
    requires Enumerates(order, store.Topics())
    ensures SentIn(Batches(store.Taken(), order), i) == store.Pending(i)
  {
    BatchesSend(store.Taken(), order, i);
    hide SentIn, Batches;
  }

  lemma {:induction false} SendSubMails(st: State, p: Pick, now: nat, c: ClientIdx)
    requires CanPick(st.s, p) && c in st.c.outboxes
    ensures var r := SendSub(st, p, now);
      && c in r.c.outboxes
      && r.c.outboxes[c] == st.c.outboxes[c] +
           if st.s.subscriptions[p.s].1 == c && c in st.c.clients && st.c.clients[c].hasOutput then Batches(st.s.subValues[p.s].Taken(), p.order) else []
  {
    hide Batches, Joined;
  }

  lemma {:induction false} Associate(a: seq<Message>, b: seq<Message>, c: seq<Message>)
    ensures (a + b) + c == a + (b + c) && a + [] == a && b + [] == b
  {}

  /** A pass appends to each channel the values that were waiting for the client, and nothing else. */
  lemma {:induction false} SendOutMails(st: State, picks: seq<Pick>, now: nat, c: ClientIdx)
    requires forall p | p in picks :: CanPick(st.s, p)
    requires forall j, k :: 0 <= j < k < |picks| ==> picks[j].s != picks[k].s
    requires c in st.c.outboxes
    ensures var r := SendOutStep(st, picks, now);
      && c in r.c.outboxes
      && r.c.outboxes[c] == st.c.outboxes[c] + if c in st.c.clients && st.c.clients[c].hasOutput then MailFor(st.s, picks, c) else []
  {
    if picks != [] {
      var front, last := picks[..|picks| - 1], picks[|picks| - 1];
      assert forall p | p in front :: p in picks;
      assert last in picks && CanPick(st.s, last);
      assert !Picked(front, last.s);
      SendOutMails(st, front, now, c);
      SendOutFrame(st, front, now);
      SendOutOthers(st, front, now, last.s);
      var before := SendOutStep(st, front, now);
      assert SendOutStep(st, picks, now) == SendSub(before, last, now);
      hide SendSub, SendOutStep, Batches, Picked, ValidPick;
      assert before.s.subscriptions[last.s] == st.s.subscriptions[last.s] && before.s.subValues[last.s] == st.s.subValues[last.s];
      SendSubMails(before, last, now, c);
      Associate(st.c.outboxes[c], MailFor(st.s, front, c), Batches(st.s.subValues[last.s].Taken(), last.order));
    }
  }

  /** The same for every pass of every run, value by value. */
  lemma {:induction false} PassDelivers(states: seq<State>, ops: seq<Op>, k: nat, c: ClientIdx, i: TopicIdx)
    requires IsRun(states, ops) && k < |ops| && ops[k].OpSendOut? && c in states[k].c.outboxes && c in states[k].c.clients
    ensures c in states[k + 1].c.outboxes
    ensures forall p | p in ops[k].picks :: CanPick(states[k].s, p)
    ensures SentIn(states[k + 1].c.outboxes[c], i) == SentIn(states[k].c.outboxes[c], i) + WaitingFor(states[k].s, ops[k].picks, c, i)
  {
    var st, picks := states[k], ops[k].picks;
    assert Enabled(st, ops[k]);
    assert forall p | p in picks :: ValidPick(st.s, p);
    RunInv(states, ops, k);
    SeatedPart(st);
    hide Inv, Init, IsRun, SendOutStep, SentIn, MailFor, WaitingFor, ValidPick;
    PassStep(states, ops, k);
    SendOutMails(st, picks, ops[k].now, c);
    MailCarries(st.s, picks, c, i);
    SentInAppend(st.c.outboxes[c], MailFor(st.s, picks, c), i);
  }

  lemma {:induction false} PassStep(states: seq<State>, ops: seq<Op>, k: nat)
    requires IsRun(states, ops) && k < |ops| && ops[k].OpSendOut?
    ensures forall p | p in ops[k].picks :: CanPick(states[k].s, p)
    ensures states[k + 1] == SendOutStep(states[k], ops[k].picks, ops[k].now)
  {
    hide SendOutStep;
    assert Enabled(states[k], ops[k]);
    assert forall p | p in ops[k].picks :: ValidPick(states[k].s, p);
  }
}
