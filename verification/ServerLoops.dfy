/** What the loops of the handlers need: one more round, and nothing more after an error. */
module ServerLoops {
  import opened Basics
  import opened Protocol
  import opened SubValue
  import opened ServerModel
  import opened Mailbox
  import opened Invariants
  import opened ClientSteps
  import Mailing

  lemma {:induction false} WithoutTwo<K, V>(m: map<K, V>, a: K, b: K)
    ensures m - {a} - {b} == m - {a, b}
  {}

  lemma {:induction false} WithoutThree<K, V>(m: map<K, V>, a: K, b: K, c: K)
    ensures m - {a} - {b} - {c} == m - {a, b, c}
  {}

  lemma {:induction false} ToldNobody(c: ClientTables, i: TopicIdx, m: Message)
    ensures Told(c, {}, i, m) == c
  {}

  /** One more client marked and told, if it is connected. */
  lemma {:induction false} ToldOneMore(c: ClientTables, n: nat, done: set<ClientIdx>, k: ClientIdx, i: TopicIdx, m: Message)
    requires Seated(c.clients, c.outboxes, c.clientMap, n) && k !in done
    ensures var t := Told(c, done, i, m);
      Told(c, done + {k}, i, m) ==
        if k in t.clients then Deliver(t.(clients := t.clients[k := MarkAnnounced(t.clients[k], i)]), k, [m]) else t
  {}

  lemma {:induction false} RespondSeated(st: State, i: TopicIdx, response: Option<(PubUID, ClientIdx)>)
    requires Inv(st) && i in st.t.topics && (response.Some? ==> response.value.1 in st.c.clients)
    ensures var c := if response.Some? then Respond(st.c, i, st.t.topics[i], response.value.0, response.value.1) else st.c;
      Seated(c.clients, c.outboxes, c.clientMap, st.counters.clientIdx)
  {
    if response.Some? {
      RespondInv(st, i, response.value.0, response.value.1);
      Mailing.SeatedPart(st.(c := Respond(st.c, i, st.t.topics[i], response.value.0, response.value.1)));
    } else {
      Mailing.SeatedPart(st);
    }
    hide Inv, Respond, Seated;
  }

  /** `try_new` adds its three metatopics through the general way. */
  lemma {:induction false} InitAdds(checks: bool)
    ensures var a := AddTopic(Blank(checks), NewMeta("$clients")).st;
      var b := AddTopic(a, NewMeta("$serversub")).st;
      AddTopic(b, NewMeta("$serverpub")).st == Init(checks)
  {
    hide SubsUntouched, SeatsUntouched;
    var st := Blank(checks);
    var a := Alloc(st, NewMeta("$clients"));
    var b := Alloc(a, NewMeta("$serversub"));
    assert "$clients"[0] == '$' && "$serversub"[0] == '$' && "$serverpub"[0] == '$';
    assert "$serversub" !in a.t.topicMap && "$serverpub" !in b.t.topicMap by {
      assert "$clients"[1] == 'c' && "$serversub"[1] == 's' && "$serverpub"[1] == 's' && "$serversub"[7] == 's' && "$serverpub"[7] == 'p';
      assert a.t.topicMap.Keys == {"$clients"} && b.t.topicMap.Keys == {"$clients", "$serversub"};
    }
    hide Alloc;
  }

  lemma {:induction false} DecrementKeeps(st: State, i: TopicIdx)
    requires i in st.p.pubCount
    ensures Decrement(st, i).st.p.pubCount.Keys == st.p.pubCount.Keys
  {
    hide SubsUntouched, SeatsUntouched;
  }

  lemma {:induction false} ListDistinct(st: State, i: TopicIdx)
    requires Inv(st) && i in st.t.topicSubs
    ensures Distinct(st.t.topicSubs[i])
  {
    hide TopicInv, ClientInv, SubInv, MailInv, BirthsOk, MatchExact, ListedMatch;
    assert ListExact(st.t.topicSubs[i], i, st.s.subscriptions.Keys, st.log.births);
  }

  lemma {:induction false} QueuedNone(stores: map<SubIdx, StoredSubValue>, i: TopicIdx, v: TimestampedValue)
    ensures Queued(stores, [], i, v) == stores
  {}

  lemma {:induction false} QueuedOneMore(stores: map<SubIdx, StoredSubValue>, list: seq<SubIdx>, k: nat, i: TopicIdx, v: TimestampedValue)
    requires k < |list| && Distinct(list) && forall s | s in list :: s in stores
    ensures var q := Queued(stores, list[..k], i, v);
      list[k] in q && Queued(stores, list[..k + 1], i, v) == q[list[k] := q[list[k]].AddValue(i, v)]
  {
    assert list[..k + 1] == list[..k] + [list[k]] && list[k] !in list[..k];
    hide StoredSubValue.AddValue;
  }

  // ---- iteration orders ----

  /** A set can be iterated in some order. */
  lemma {:induction false} SomeOrder<T(!new)>(keys: set<T>) returns (order: seq<T>)
    ensures Enumerates(order, keys)
    decreases keys
  {
    if keys == {} {
      order := [];
    } else {
      var x :| x in keys;
      var rest := SomeOrder(keys - {x});
      order := rest + [x];
    }
  }

  // ---- nothing more after an error ----

  lemma {:induction false} VisitStuck(t: TopicTables, s: SubIdx, found: seq<(TopicIdx, string)>, k: nat)
    requires k <= |found| && !VisitAll(t, s, found[..k]).ok
    ensures VisitAll(t, s, found) == VisitAll(t, s, found[..k])
    decreases |found|
  {
    if k == |found| {
      assert found[..k] == found;
    } else {
      var front := found[..|found| - 1];
      assert front[..k] == found[..k];
      VisitStuck(t, s, front, k);
    }
  }

  lemma {:induction false} ReleaseStuck(st: State, pubs: map<PubUID, TopicIdx>, order: seq<PubUID>, k: nat)
    requires k <= |order| && (forall p | p in order :: p in pubs) && ReleaseAll(st, pubs, order[..k]).out.Err?
    ensures ReleaseAll(st, pubs, order) == ReleaseAll(st, pubs, order[..k])
    decreases |order|
  {
    if k == |order| {
      assert order[..k] == order;
    } else {
      var front := order[..|order| - 1];
      assert front[..k] == order[..k];
      ReleaseStuck(st, pubs, front, k);
      hide Release, SubsUntouched, SeatsUntouched;
    }
  }

  lemma {:induction false} DeliverTwice(c: ClientTables, idx: ClientIdx, a: Message, b: Message)
    ensures Deliver(Deliver(c, idx, [a]), idx, [b]) == Deliver(c, idx, [a, b])
  {
    if idx in c.clients && c.clients[idx].hasOutput {
      assert GetOr(c.outboxes, idx, []) + [a] + [b] == GetOr(c.outboxes, idx, []) + [a, b];
    }
  }

  lemma {:induction false} DeliverNothing(c: ClientTables, idx: ClientIdx)
    requires idx in c.clients && (c.clients[idx].hasOutput ==> idx in c.outboxes)
    ensures Deliver(c, idx, []) == c
  {
    if idx in c.outboxes {
      assert c.outboxes[idx] + [] == c.outboxes[idx];
    }
  }

  lemma {:induction false} DeliverMore(c: ClientTables, idx: ClientIdx, ms: seq<Message>, m: Message)
    ensures Deliver(Deliver(c, idx, ms), idx, [m]) == Deliver(c, idx, ms + [m]) && Deliver(c, idx, ms).clients == c.clients
  {
    if idx in c.clients && c.clients[idx].hasOutput {
      assert GetOr(c.outboxes, idx, []) + ms + [m] == GetOr(c.outboxes, idx, []) + (ms + [m]);
    }
  }

  lemma {:induction false} WithoutMetas(st: State, idx: ClientIdx)
    requires Inv(st) && idx in st.p.clientMetatopics
    ensures Inv(st.(p := st.p.(clientMetatopics := st.p.clientMetatopics - {idx})))
  {
    var p' := st.p.(clientMetatopics := st.p.clientMetatopics - {idx});
    hide Inv;
    Unmentioned(st, p', st.tlog.releases);
    assert st.(p := p', tlog := st.tlog.(releases := st.tlog.releases)) == st.(p := p');
  }
}
