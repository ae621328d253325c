/** Changes to client records and output channels keep the invariant. */
module ClientSteps {
  import opened Basics
  import opened BiMap
  import opened Protocol
  import opened MetaTopic
  import opened SubValue
  import opened ServerModel
  import opened Mailbox
  import opened Invariants

  // ---- announcing ----

  lemma {:induction false} AnnouncedInPrefix(ms: seq<Message>, more: seq<Message>, i: TopicIdx)
    requires ms <= more && Announced(ms, i)
    ensures Announced(more, i)
  {
    var k :| 0 <= k < |ms| && Announces(ms[k], i);
    assert more[k] == ms[k];
  }

  /** Channels that only grow stay ahead of the values. */
  lemma {:induction false} GrownMail(outboxes: map<ClientIdx, seq<Message>>, outboxes': map<ClientIdx, seq<Message>>, s: SubTables,
                                     births: map<SubIdx, Birth>, topics: set<TopicIdx>)
    requires Forewarned(outboxes, s.subscriptions, births, topics) && Expected(outboxes, s.subscriptions, s.subValues)
    requires outboxes'.Keys == outboxes.Keys && forall k | k in outboxes :: outboxes[k] <= outboxes'[k]
    ensures Forewarned(outboxes', s.subscriptions, births, topics) && Expected(outboxes', s.subscriptions, s.subValues)
  {
    forall k, i | k in outboxes && Announced(outboxes[k], i) ensures Announced(outboxes'[k], i) {
      AnnouncedInPrefix(outboxes[k], outboxes'[k], i);
    }
  }

  /** `m` is one truthful announcement of topic `i`. */
  ghost predicate OneAnnouncement(m: Message, i: TopicIdx, names: seq<string>) {
    m.Text? && |m.msgs| == 1 && Truthful(m.msgs[0], names) && m.msgs[0].announce.id == i
  }

  /** Appending an announcement keeps a channel clean, and its topic is announced from then on. */
  lemma {:induction false} PostAnnouncement(ms: seq<Message>, m: Message, i: TopicIdx, names: seq<string>, announced: set<TopicIdx>)
    requires Clean(ms, names) && OneAnnouncement(m, i, names) && BookedBy(announced, ms)
    requires m.msgs[0].announce.pubuid.Some? ==> i !in announced
    requires forall k :: Replies(ms, k) <= 1
    ensures Clean(ms + [m], names) && BookedBy(announced + {i}, ms + [m])
    ensures forall k :: Replies(ms + [m], k) <= 1
  {
    CleanAppend(ms, m, names);
    AnnouncedGrows(ms, [m]);
    assert AnnouncesId(m.msgs[0], i);
    AnnouncedLast(ms, m, i);
    forall k ensures Replies(ms + [m], k) == Replies(ms, k) + if IsReply(m.msgs[0], k) then 1 else 0 {
      RepliesAppend(ms, m, k);
      assert m.msgs == [m.msgs[0]] && m.msgs[..0] == [];
    }
  }

  /** The clients in `whom` were told about topic `i` with message `m`. */
  ghost predicate ToldEach(c: ClientTables, c': ClientTables, whom: set<ClientIdx>, i: TopicIdx, m: Message) {
    && c'.clientMap == c.clientMap && c'.clients.Keys == c.clients.Keys && c'.outboxes.Keys == c.outboxes.Keys
    && (forall k | k in c.clients :: c'.clients[k] == if k in whom then MarkAnnounced(c.clients[k], i) else c.clients[k])
    && (forall k | k in c.outboxes :: c'.outboxes[k] == if k in whom && k in c.clients then c.outboxes[k] + [m] else c.outboxes[k])
  }

  lemma {:induction false} ToldEachMail(c: ClientTables, c': ClientTables, whom: set<ClientIdx>, i: TopicIdx, m: Message, s: SubTables,
                                        births: map<SubIdx, Birth>, topics: set<TopicIdx>, names: seq<string>)
    requires ToldEach(c, c', whom, i, m) && MailInv(c, s, births, topics, names) && OneAnnouncement(m, i, names)
    requires m.msgs[0].announce.pubuid.Some? ==> forall k | k in whom && k in c.clients :: i !in c.clients[k].announced
    ensures MailInv(c', s, births, topics, names)
  {
    GrownMail(c.outboxes, c'.outboxes, s, births, topics);
    forall k | k in c.outboxes
      ensures Clean(c'.outboxes[k], names) && (forall j :: Replies(c'.outboxes[k], j) <= 1)
      ensures k in c.clients ==> BookedBy(c'.clients[k].announced, c'.outboxes[k])
    {
      if k in whom && k in c.clients {
        PostAnnouncement(c.outboxes[k], m, i, names, c.clients[k].announced);
      }
    }
  }

  lemma {:induction false} ToldEachClients(c: ClientTables, c': ClientTables, whom: set<ClientIdx>, i: TopicIdx, m: Message, n: nat, names: seq<string>,
                                           last: map<(ClientIdx, PubUID), string>, subscriptions: map<SubIdx, (Subscription, ClientIdx)>)
    requires ToldEach(c, c', whom, i, m) && ClientInv(c, n, names, last, subscriptions)
    ensures ClientInv(c', n, names, last, subscriptions)
  {}

  lemma {:induction false} ToldEachInv(st: State, c': ClientTables, whom: set<ClientIdx>, i: TopicIdx, m: Message)
    requires Inv(st) && ToldEach(st.c, c', whom, i, m) && OneAnnouncement(m, i, st.tlog.names)
    requires m.msgs[0].announce.pubuid.Some? ==> forall k | k in whom && k in st.c.clients :: i !in st.c.clients[k].announced
    ensures Inv(st.(c := c'))
  {
    ToldEachMail(st.c, c', whom, i, m, st.s, st.log.births, st.t.topics.Keys, st.tlog.names);
    ToldEachClients(st.c, c', whom, i, m, st.counters.clientIdx, st.tlog.names, st.log.lastPublished, st.s.subscriptions);
    hide ToldEach, OneAnnouncement, MailInv, ClientInv, TopicInv, IndexInv, SubInv;
  }

  lemma {:induction false} RespondTold(c: ClientTables, n: nat, i: TopicIdx, topic: Topic, pubuid: PubUID, idx: ClientIdx)
    requires Seated(c.clients, c.outboxes, c.clientMap, n) && idx in c.clients && i !in c.clients[idx].announced
    ensures ToldEach(c, Respond(c, i, topic, pubuid, idx), {idx}, i, AnnounceOf(topic, i, Some(AsI32(pubuid))))
  {
    hide AnnounceOf;
  }

  lemma {:induction false} ToldTold(c: ClientTables, whom: set<ClientIdx>, i: TopicIdx, m: Message)
    ensures ToldEach(c, Told(c, whom, i, m), whom, i, m)
  {}

  lemma {:induction false} AnnounceOfTruthful(t: TopicTables, names: seq<string>, i: TopicIdx, pubuid: Option<i32>)
    requires TopicsNamed(t.topics, names) && i in t.topics
    ensures var m := AnnounceOf(t.topics[i], i, pubuid); OneAnnouncement(m, i, names) && m.msgs[0].announce.pubuid == pubuid
  {}

  lemma {:induction false} RespondInv(st: State, i: TopicIdx, pubuid: PubUID, idx: ClientIdx)
    requires Inv(st) && idx in st.c.clients && i in st.t.topics
    ensures Inv(st.(c := Respond(st.c, i, st.t.topics[i], pubuid, idx)))
  {
    assert TopicsNamed(st.t.topics, st.tlog.names) && Seated(st.c.clients, st.c.outboxes, st.c.clientMap, st.counters.clientIdx) by { hide IndexInv, SubInv, MailInv, TopicsNamed, Seated; }
    hide Inv, TopicsNamed, Seated, AnnounceOf, ToldEach, OneAnnouncement;
    var topic := st.t.topics[i];
    var c' := Respond(st.c, i, topic, pubuid, idx);
    if i in st.c.clients[idx].announced {
      assert st.(c := c') == st;
    } else {
      RespondTold(st.c, st.counters.clientIdx, i, topic, pubuid, idx);
      AnnounceOfTruthful(st.t, st.tlog.names, i, Some(AsI32(pubuid)));
      ToldEachInv(st, c', {idx}, i, AnnounceOf(topic, i, Some(AsI32(pubuid))));
    }
  }

  lemma {:induction false} AnnounceTopicInv(st: State, i: TopicIdx, response: Option<(PubUID, ClientIdx)>)
    requires Inv(st)
    ensures Inv(AnnounceTopic(st, i, response).st)
  {
    if AnnounceTopic(st, i, response).out.Ok? {
      var topic := st.t.topics[i];
      var whom, m := Interested(st.s, topic.name), AnnounceOf(topic, i, None);
      AnnounceOfTruthful(st.t, st.tlog.names, i, None);
      hide Inv, AnnounceOf, Told, Respond, Interested;
      match response
      case None =>
        ToldTold(st.c, whom, i, m);
        ToldEachInv(st, Told(st.c, whom, i, m), whom, i, m);
      case Some((pubuid, idx)) =>
        RespondInv(st, i, pubuid, idx);
        var c1 := Respond(st.c, i, topic, pubuid, idx);
        ToldTold(c1, whom, i, m);
        ToldEachInv(st.(c := c1), Told(c1, whom, i, m), whom, i, m);
    }
  }

  // ---- tables the invariant does not mention ----

  lemma {:induction false} Unmentioned(st: State, p': PubTables, releases': seq<nat>)
    requires Inv(st) && |releases'| == |st.tlog.releases|
    ensures Inv(st.(p := p', tlog := st.tlog.(releases := releases')))
  {
    hide ClientInv, SubInv, MailInv;
  }

  lemma {:induction false} UpdatePublishersInv(st: State, c: ClientIdx, entry: ClientPublisherMTE, merge: bool)
    requires Inv(st)
    ensures Inv(UpdatePublishers(st, c, entry, merge).st)
  {
    Unmentioned(st, UpdatePublishers(st, c, entry, merge).st.p, st.tlog.releases);
    hide Inv;
  }

  lemma {:induction false} DecrementInv(st: State, i: TopicIdx)
    requires Inv(st) && i in st.p.pubCount
    ensures Inv(Decrement(st, i).st)
  {
    var r := Decrement(st, i).st;
    Unmentioned(st, r.p, r.tlog.releases);
    hide Inv;
  }

  // ---- publisher uids ----

  function WithPubs(c: ClientTables, idx: ClientIdx, pubs: PrimBiMap<PubUID, TopicIdx>): ClientTables
    requires idx in c.clients
  {
    c.(clients := c.clients[idx := c.clients[idx].(pubs := pubs)])
  }

  lemma {:induction false} WithPubsInv(c: ClientTables, idx: ClientIdx, pubs: PrimBiMap<PubUID, TopicIdx>, n: nat, subscriptions: map<SubIdx, (Subscription, ClientIdx)>)
    requires idx in c.clients && Seated(c.clients, c.outboxes, c.clientMap, n) && Owned(c.clients, subscriptions)
    ensures var r := WithPubs(c, idx, pubs); Seated(r.clients, r.outboxes, r.clientMap, n) && Owned(r.clients, subscriptions)
  {
    hide OwnedBy;
  }

  lemma {:induction false} WithPubsBooked(c: ClientTables, idx: ClientIdx, pubs: PrimBiMap<PubUID, TopicIdx>)
    requires idx in c.clients && Booked(c.clients, c.outboxes)
    ensures Booked(WithPubs(c, idx, pubs).clients, c.outboxes)
  {
    hide BookedBy;
  }

  lemma {:induction false} WithPubsRouted(c: ClientTables, idx: ClientIdx, pubs: PrimBiMap<PubUID, TopicIdx>, names: seq<string>,
                                          last: map<(ClientIdx, PubUID), string>, last': map<(ClientIdx, PubUID), string>)
    requires idx in c.clients && Routed(c.clients, names, last)
    requires forall k | k in last && k.0 != idx :: k in last' && last'[k] == last[k]
    requires forall p | p in pubs.fwd :: pubs.fwd[p] < |names| && (idx, p) in last' && names[pubs.fwd[p]] == last'[(idx, p)]
    ensures Routed(WithPubs(c, idx, pubs).clients, names, last')
  {}

  lemma {:induction false} RepublishedInv(st: State, idx: ClientIdx, pubs: PrimBiMap<PubUID, TopicIdx>, last': map<(ClientIdx, PubUID), string>)
    requires Inv(st) && idx in st.c.clients
    requires forall k | k in st.log.lastPublished && k.0 != idx :: k in last' && last'[k] == st.log.lastPublished[k]
    requires forall p | p in pubs.fwd :: pubs.fwd[p] < |st.tlog.names| && (idx, p) in last' && st.tlog.names[pubs.fwd[p]] == last'[(idx, p)]
    ensures Inv(st.(c := WithPubs(st.c, idx, pubs), log := st.log.(lastPublished := last')))
  {
    WithPubsInv(st.c, idx, pubs, st.counters.clientIdx, st.s.subscriptions);
    WithPubsBooked(st.c, idx, pubs);
    WithPubsRouted(st.c, idx, pubs, st.tlog.names, st.log.lastPublished, last');
    hide TopicInv, IndexInv, Seated, Owned, Booked, Routed, AllClean, Forewarned, Expected, Tabled, Delivered, BirthsOk;
  }

  lemma {:induction false} BindPubInv(st: State, c: ClientIdx, pubuid: PubUID, i: TopicIdx, name: string)
    requires Inv(st) && c in st.c.clients && i < |st.tlog.names| && st.tlog.names[i] == name
    ensures Inv(BindPub(st, c, pubuid, i, name))
  {
    hide TopicInv, IndexInv, SubInv, MailInv, Seated, Owned;
    RepublishedInv(st, c, st.c.clients[c].pubs.Insert(pubuid, i), st.log.lastPublished[(c, pubuid) := name]);
    hide Inv;
  }

  lemma {:induction false} UnbindPubInv(st: State, c: ClientIdx, pubuid: PubUID)
    requires Inv(st) && c in st.c.clients
    ensures Inv(UnbindPub(st, c, pubuid))
  {
    hide TopicInv, IndexInv, SubInv, MailInv, Seated, Owned;
    RepublishedInv(st, c, st.c.clients[c].pubs.RemoveByLeft(pubuid), st.log.lastPublished);
    hide Inv;
    assert st.log.(lastPublished := st.log.lastPublished) == st.log;
  }

  // ---- arriving and leaving ----

  lemma {:induction false} ArriveClients(c: ClientTables, n: nat, identity: Identity, names: seq<string>, last: map<(ClientIdx, PubUID), string>,
                                         subscriptions: map<SubIdx, (Subscription, ClientIdx)>)
    requires ClientInv(c, n, names, last, subscriptions)
    ensures ClientInv(ClientTables(c.clientMap[identity := n], c.clients[n := NewClient(identity)], c.outboxes[n := []]), n + 1, names, last, subscriptions)
  {
    hide OwnedBy;
  }

  lemma {:induction false} ArriveMail(c: ClientTables, n: nat, identity: Identity, s: SubTables, births: map<SubIdx, Birth>, topics: set<TopicIdx>, names: seq<string>)
    requires MailInv(c, s, births, topics, names) && n !in c.outboxes
    requires forall k | k in s.subscriptions :: s.subscriptions[k].1 != n
    ensures MailInv(ClientTables(c.clientMap[identity := n], c.clients[n := NewClient(identity)], c.outboxes[n := []]), s, births, topics, names)
  {
    assert Clean([], names) && BookedBy({}, []) && forall i :: Replies([], i) == 0;
  }

  lemma {:induction false} RegisterInv(st: State, identity: Identity)
    requires Inv(st)
    ensures Inv(Register(st, identity))
  {
    ArriveClients(st.c, st.counters.clientIdx, identity, st.tlog.names, st.log.lastPublished, st.s.subscriptions);
    ArriveMail(st.c, st.counters.clientIdx, identity, st.s, st.log.births, st.t.topics.Keys, st.tlog.names);
    hide TopicInv, ClientInv, IndexInv, MailInv, Delivered;
  }

  lemma {:induction false} UnregisterInv(st: State, identity: Identity)
    requires Inv(st) && identity in st.c.clientMap
    ensures Inv(Unregister(st, identity))
  {
    var r := Unregister(st, identity);
    assert ClientInv(r.c, r.counters.clientIdx, r.tlog.names, r.log.lastPublished, r.s.subscriptions);
  }
}
