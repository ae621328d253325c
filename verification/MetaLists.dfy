/** The lists the server keeps as metatopic values: who is connected, and what each client publishes. */
module MetaLists {
  import opened Basics
  import opened BiMap
  import opened Protocol
  import opened MetaTopic
  import opened SubValue
  import opened ServerModel
  import opened Invariants
  import opened TopicSteps
  import opened ClientSteps
  import opened Handlers
  import opened Growth
  import opened Lockstep
  import opened History
  import opened Routing
  import opened TopicLives
  import opened Disconnects
  import opened Meanings

  // ---- where the lists are ----

  /** The names of the server's first three topics. */
  predicate FirstNames(names: seq<string>) {
    |names| >= 3 && names[0] == "$clients" && names[1] == "$serversub" && names[2] == "$serverpub"
  }

  /** Id 0 has the list of clients, id 2 that of the server's own publishers, ids of `$clientpub$` topics those of clients. */
  predicate HasList(names: seq<string>, k: TopicIdx) {
    k < |names| && (k == 0 || k == 2 || IsClientPub(names[k]))
  }

  /** Each list is of the right kind. */
  predicate KindsOk(lists: map<TopicIdx, MetaTopicValue>) {
    forall k | k in lists :: if k == 0 then lists[k].Client? else if k == 2 then lists[k].ServerPublisher? else lists[k].ClientPublisher?
  }

  /** The id under which a client's publishers are listed. */
  function ListId(p: PubTables, c: ClientIdx): Option<TopicIdx> {
    if c == 0 then Some(2) else if c in p.clientMetatopics then Some(p.clientMetatopics[c].0) else None
  }

  /** The publishers listed under an id: topic names and pubuids. */
  function PubsAt(p: PubTables, k: TopicIdx): seq<ClientPublisherMTE> {
    if k in p.metaValues && !p.metaValues[k].Client? then p.metaValues[k].pubs else []
  }

  /** The clients listed: names and addresses. */
  function ClientsAt(p: PubTables): seq<ClientMTE> {
    if 0 in p.metaValues && p.metaValues[0].Client? then p.metaValues[0].conns else []
  }

  /** No other id has a list. */
  ghost predicate KeysOk(lists: map<TopicIdx, MetaTopicValue>, names: seq<string>) {
    forall k | k in lists :: HasList(names, k)
  }

  /** In every reachable state: the kinds fit, and the ids of clients' lists are those of `$clientpub$` topics. */
  ghost predicate ListsOk(st: State) {
    && FirstNames(st.tlog.names) && KindsOk(st.p.metaValues) && KeysOk(st.p.metaValues, st.tlog.names)
    && Serviced(st.p.clientMetatopics, st.tlog.names)
  }

  lemma {:induction false} ListIdsDiffer(names: seq<string>, k: TopicIdx)
    requires FirstNames(names) && k < |names| && IsClientPub(names[k])
    ensures k != 0 && k != 2
  {
    assert names[k][7] == 'p' && names[k][1] == 'c' && "$clients"[7] == 's' && "$serverpub"[1] == 's';
  }

  lemma {:induction false} MetaNoList(name: string)
    ensures !IsClientPub(PubMeta(name)) && !IsClientPub(SubMeta(name))
    ensures PubMeta(name) != "$clients" && SubMeta(name) != "$clients" && PubMeta(name) != "$serverpub" && SubMeta(name) != "$serverpub"
  {
    assert PubMeta(name)[1] == 'p' && SubMeta(name)[2] == 'u' && SubMeta(name)[1] == 's';
    assert "$clientpub$"[1] == 'c' && "$clients"[1] == 'c' && "$serverpub"[1] == 's' && "$serverpub"[2] == 'e';
  }

  // ---- what keeps a list ----

  /** The list under `k` is as it was. */
  predicate Same(a: PubTables, b: PubTables, k: TopicIdx) {
    Lookup(b.metaValues, k) == Lookup(a.metaValues, k)
  }

  /** Lists may be dropped, none appears, and clients keep their ids. */
  ghost predicate Fewer(a: PubTables, b: PubTables) {
    Submap(b.metaValues, a.metaValues) && Submap(b.clientMetatopics, a.clientMetatopics)
  }

  lemma {:induction false} FewerOk(a: State, b: State)
    requires ListsOk(a) && Fewer(a.p, b.p) && a.tlog.names <= b.tlog.names
    ensures ListsOk(b)
  {
    hide IsClientPub, IsClientSub;
  }

  lemma {:induction false} RemovedIds(t: TopicTables, g: TopicLog, n: nat, i: TopicIdx, k: TopicIdx)
    requires TopicInv(t, g, n) && FirstNames(g.names) && HasList(g.names, k)
    ensures Removed(t, i).1.Some? ==> k != Removed(t, i).1.value.0 && k != Removed(t, i).1.value.1
  {
    hide HaveLists, Cached, PubMeta, SubMeta, IsClientPub;
    if i in t.topics {
      MetaNoList(t.topics[i].name);
    }
  }

  lemma {:induction false} TopicPartOf(st: State)
    requires Inv(st)
    ensures TopicInv(st.t, st.tlog, st.counters.topicIdx)
  {
    hide TopicInv, OwnNames, ClientInv, IndexInv, SubInv, MailInv;
  }

  lemma {:induction false} RemoveSame(st: State, i: TopicIdx, k: TopicIdx)
    requires Inv(st) && FirstNames(st.tlog.names) && HasList(st.tlog.names, k)
    ensures var r := RemoveTopic(st, i).st; Same(st.p, r.p, k) && Fewer(st.p, r.p) && r.tlog == st.tlog && r.p.clientMetatopics == st.p.clientMetatopics
  {
    hide Inv, Removed, HasList, FirstNames, SubsUntouched, SeatsUntouched;
    TopicPartOf(st);
    RemovedIds(st.t, st.tlog, st.counters.topicIdx, i, k);
  }

  lemma {:induction false} ReleaseSame(st: State, i: TopicIdx, k: TopicIdx)
    requires Inv(st) && i in st.p.pubCount && FirstNames(st.tlog.names) && HasList(st.tlog.names, k)
    ensures var r := Release(st, i).st;
      Same(st.p, r.p, k) && Fewer(st.p, r.p) && r.tlog.names == st.tlog.names && r.p.clientMetatopics == st.p.clientMetatopics
  {
    hide Inv, RemoveTopic, Bump, HasList, FirstNames, SubsUntouched, SeatsUntouched;
    DecrementInv(st, i);
    var d := Decrement(st, i);
    assert d.st.p.metaValues == st.p.metaValues && d.st.p.clientMetatopics == st.p.clientMetatopics && d.st.tlog.names == st.tlog.names;
    if d.out.Ok? {
      RemoveSame(d.st, i, k);
    }
  }

  lemma {:induction false} ReleaseAllSame(st: State, pubs: map<PubUID, TopicIdx>, order: seq<PubUID>, k: TopicIdx)
    requires Inv(st) && (forall u | u in order :: u in pubs) && FirstNames(st.tlog.names) && HasList(st.tlog.names, k)
    ensures var r := ReleaseAll(st, pubs, order).st;
      Inv(r) && Same(st.p, r.p, k) && Fewer(st.p, r.p) && r.tlog.names == st.tlog.names && r.p.clientMetatopics == st.p.clientMetatopics
  {
    hide Inv, Release, HasList, FirstNames, SubsUntouched, SeatsUntouched;
    ReleaseAllInv(st, pubs, order);
    if order != [] {
      var front, last := order[..|order| - 1], order[|order| - 1];
      assert last in order && forall u | u in front :: u in order;
      ReleaseAllSame(st, pubs, front, k);
      var before := ReleaseAll(st, pubs, front).st;
      if pubs[last] in before.p.pubCount {
        ReleaseSame(before, pubs[last], k);
      }
    }
  }

  lemma {:induction false} DropSame(st: State, idx: ClientIdx, k: TopicIdx)
    requires Inv(st) && FirstNames(st.tlog.names) && HasList(st.tlog.names, k)
    ensures var r := DropMetatopics(st, idx).st; Same(st.p, r.p, k) && Fewer(st.p, r.p) && r.tlog.names == st.tlog.names
  {
    hide Inv, RemoveTopic, HasList, FirstNames, SubsUntouched, SeatsUntouched;
    if idx in st.p.clientMetatopics {
      var metas := st.p.clientMetatopics[idx];
      var st1 := st.(p := st.p.(clientMetatopics := st.p.clientMetatopics - {idx}));
      Unmentioned(st, st1.p, st.tlog.releases);
      assert st.(p := st1.p, tlog := st.tlog.(releases := st.tlog.releases)) == st1;
      RemoveSame(st1, metas.0, k);
      RemoveTopicInv(st1, metas.0);
      RemoveSame(RemoveTopic(st1, metas.0).st, metas.1, k);
    }
  }

  lemma {:induction false} DisconnectSame(st: State, identity: Identity, order: seq<PubUID>, k: TopicIdx)
    requires Inv(st) && (forall u | u in order :: u in PubsOf(st.c, identity)) && FirstNames(st.tlog.names) && HasList(st.tlog.names, k)
    ensures var r := DisconnectStep(st, identity, order).st; Same(st.p, r.p, k) && Fewer(st.p, r.p) && r.tlog.names == st.tlog.names
  {
    hide Inv, ReleaseAll, DropMetatopics, PubsOf, HasList, FirstNames, SubsUntouched, SeatsUntouched;
    if identity in st.c.clientMap {
      UnregisterInv(st, identity);
      UnregisterTables(st, identity);
      var st1, idx := Unregister(st, identity), st.c.clientMap[identity];
      hide Unregister;
      ReleaseAllSame(st1, PubsOf(st.c, identity), order, k);
      DropSame(ReleaseAll(st1, PubsOf(st.c, identity), order).st, idx, k);
    }
  }

  // ---- adding topics changes no list ----

  predicate SameLists(a: State, b: State) {
    b.p.metaValues == a.p.metaValues && b.p.clientMetatopics == a.p.clientMetatopics && a.tlog.names <= b.tlog.names
  }

  lemma {:induction false} AllocLists(st: State, topic: Topic)
    ensures SameLists(st, Alloc(st, topic))
  {}

  lemma {:induction false} AnnounceLists(st: State, i: TopicIdx, response: Option<(PubUID, ClientIdx)>)
    ensures SameLists(st, AnnounceTopic(st, i, response).st)
  {
    hide Told, Respond, Interested, AnnounceOf;
  }

  lemma {:induction false} AddMetaLists(st: State, name: string)
    requires '$' in name
    ensures SameLists(st, AddMeta(st, name).st)
  {
    hide Alloc, AnnounceTopic, SubsUntouched, SeatsUntouched;
    AllocLists(st, NewMeta(name));
    var r := AddTopic(st, NewMeta(name));
    AnnounceLists(r.st, r.out.value, None);
  }

  lemma {:induction false} AddTopicLists(st: State, topic: Topic)
    ensures SameLists(st, AddTopic(st, topic).st)
  {
    hide Alloc, AddMeta, PubMeta, SubMeta, SubsUntouched, SeatsUntouched;
    AllocLists(st, topic);
    if topic.name !in st.t.topicMap && '$' !in topic.name {
      MetaNames(topic.name);
      var st1 := Alloc(st, topic);
      AddMetaLists(st1, PubMeta(topic.name));
      AddMetaLists(AddMeta(st1, PubMeta(topic.name)).st, SubMeta(topic.name));
    }
  }

  // ---- publishing and unpublishing ----

  lemma {:induction false} ListIdHas(st: State, c: ClientIdx)
    requires ListsOk(st) && ListId(st.p, c).Some?
    ensures var k := ListId(st.p, c).value; HasList(st.tlog.names, k) && k != 0 && (k == 2 <==> c == 0)
  {
    if c != 0 {
      ListIdsDiffer(st.tlog.names, st.p.clientMetatopics[c].0);
    }
    hide IsClientPub, IsClientSub;
  }

  /** Updating a client's list appends the entry, or drops every equal one, and leaves the other lists alone. */
  lemma {:induction false} UpdateExact(st: State, c: ClientIdx, entry: ClientPublisherMTE, merge: bool)
    requires ListsOk(st)
    ensures var r := UpdatePublishers(st, c, entry, merge);
      if ListId(st.p, c).None? then r == Result(st, Err(TopicDoesNotExist))
      else
        var k := ListId(st.p, c).value;
        && r.out.Ok? && r.st == st.(p := r.st.p) && r.st.p.clientMetatopics == st.p.clientMetatopics && ListsOk(r.st)
        && PubsAt(r.st.p, k) == (if merge then PubsAt(st.p, k) + [entry] else Without(PubsAt(st.p, k), [entry]))
        && k in r.st.p.metaValues && r.st.p.metaValues == st.p.metaValues[k := r.st.p.metaValues[k]]
  {
    hide Without, IsClientPub, IsClientSub, FirstNames, SubsUntouched, SeatsUntouched;
    if ListId(st.p, c).Some? {
      ListIdHas(st, c);
      WithoutOfNothing(entry);
    }
    hide HasList, Serviced;
  }

  lemma {:induction false} WithoutOfNothing(entry: ClientPublisherMTE)
    ensures Without([], [entry]) == []
  {}

  lemma {:induction false} SameListsOk(a: State, b: State)
    requires ListsOk(a) && SameLists(a, b)
    ensures ListsOk(b)
  {
    hide IsClientPub, IsClientSub;
  }

  lemma {:induction false} BindLists(st: State, c: ClientIdx, pubuid: PubUID, i: TopicIdx, name: string)
    requires c in st.c.clients
    ensures SameLists(st, BindPub(st, c, pubuid, i, name))
  {}

  /** A successful publish appends the name and the pubuid to the client's list; a failed one changes no list. */
  lemma {:induction false} PublishLists(st: State, p: PublishTopic, c: ClientIdx)
    requires ListsOk(st)
    ensures var r := PublishStep(st, p, c);
      && ListsOk(r.st) && r.st.p.clientMetatopics == st.p.clientMetatopics && st.tlog.names <= r.st.tlog.names
      && (r.out.Err? ==> r.st.p.metaValues == st.p.metaValues)
      && (r.out.Ok? ==>
            && ListId(st.p, c).Some?
            && PubsAt(r.st.p, ListId(st.p, c).value) == PubsAt(st.p, ListId(st.p, c).value) + [ClientPublisherMTE(p.name, p.pubuid)]
            && var k := ListId(st.p, c).value; k in r.st.p.metaValues && r.st.p.metaValues == st.p.metaValues[k := r.st.p.metaValues[k]])
  {
    hide AddTopic, AnnounceTopic, BindPub, UpdatePublishers, ListsOk, SubsUntouched, SeatsUntouched;
    AddTopicLists(st, FromPublishTopic(p));
    var a := AddTopic(st, FromPublishTopic(p));
    SameListsOk(st, a.st);
    if a.out.Ok? {
      AnnounceLists(a.st, a.out.value, Some((p.pubuid, c)));
      var b := AnnounceTopic(a.st, a.out.value, Some((p.pubuid, c)));
      SameListsOk(a.st, b.st);
      if b.out.Ok? && c in b.st.c.clients {
        BindLists(b.st, c, p.pubuid, a.out.value, p.name);
        var e := BindPub(b.st, c, p.pubuid, a.out.value, p.name);
        SameListsOk(b.st, e);
        UpdateExact(e, c, ClientPublisherMTE(p.name, p.pubuid), true);
      }
    }
  }

  /** The name of the topic a pubuid stands for, as far as that is live. */
  function NameBehind(st: State, c: ClientIdx, pubuid: PubUID): string {
    if c in st.c.clients && pubuid in st.c.clients[c].pubs.fwd && st.c.clients[c].pubs.fwd[pubuid] in st.t.topics
    then st.t.topics[st.c.clients[c].pubs.fwd[pubuid]].name else ""
  }

  lemma {:induction false} DropCountLists(st: State, i: TopicIdx)
    ensures SameLists(st, DropCount(st, i)) && DropCount(st, i).tlog == st.tlog
  {}

  lemma {:induction false} UnbindLists(st: State, c: ClientIdx, pubuid: PubUID)
    requires c in st.c.clients
    ensures SameLists(st, UnbindPub(st, c, pubuid)) && UnbindPub(st, c, pubuid).tlog == st.tlog
  {}

  lemma {:induction false} UnpublishShape(st: State, pubuid: PubUID, c: ClientIdx)
    requires c in st.c.clients && pubuid in st.c.clients[c].pubs.fwd
    ensures var i, st1 := st.c.clients[c].pubs.fwd[pubuid], UnbindPub(st, c, pubuid);
      UnpublishStep(st, pubuid, c) ==
        if i !in st1.p.pubCount then Result(st1, Err(TopicDoesNotExist))
        else if Release(st1, i).out.Err? then Release(st1, i)
        else UpdatePublishers(DropCount(Release(st1, i).st, i), c, ClientPublisherMTE(NameBehind(st, c, pubuid), pubuid), false)
  {
    hide UnbindPub, Release, DropCount, UpdatePublishers, SubsUntouched, SeatsUntouched;
  }

  /** A successful unpublish leaves of the client's list the entries other than this name and pubuid; a failed one changes no list. */
  lemma {:induction false} UnpublishLists(st: State, pubuid: PubUID, c: ClientIdx, j: TopicIdx)
    requires Inv(st) && ListsOk(st) && HasList(st.tlog.names, j)
    ensures var r := UnpublishStep(st, pubuid, c);
      && ListsOk(r.st) && r.st.p.clientMetatopics == st.p.clientMetatopics && r.st.tlog.names == st.tlog.names
      && (r.out.Err? ==> Same(st.p, r.st.p, j))
      && (r.out.Ok? ==>
            && ListId(st.p, c).Some?
            && (j != ListId(st.p, c).value ==> Same(st.p, r.st.p, j))
            && (j == ListId(st.p, c).value ==> PubsAt(r.st.p, j) == Without(PubsAt(st.p, j), [ClientPublisherMTE(NameBehind(st, c, pubuid), pubuid)])))
  {
    hide Inv, UnbindPub, Release, DropCount, UpdatePublishers, Without, NameBehind, IsClientPub, SubsUntouched, SeatsUntouched;
    if c in st.c.clients && pubuid in st.c.clients[c].pubs.fwd {
      UnpublishShape(st, pubuid, c);
      hide UnpublishStep;
      var i, st1 := st.c.clients[c].pubs.fwd[pubuid], UnbindPub(st, c, pubuid);
      UnbindLists(st, c, pubuid);
      UnbindPubInv(st, c, pubuid);
      SameListsOk(st, st1);
      if i in st1.p.pubCount {
        ReleaseSame(st1, i, j);
        var r := Release(st1, i).st;
        FewerOk(st1, r);
        DropCountLists(r, i);
        var d := DropCount(r, i);
        SameListsOk(r, d);
        UpdateExact(d, c, ClientPublisherMTE(NameBehind(st, c, pubuid), pubuid), false);
      }
    }
  }

  // ---- connecting ----

  lemma {:induction false} RegisterLists(st: State, identity: Identity)
    requires ListsOk(st)
    ensures var r := Register(st, identity);
      && ListsOk(r) && r.p.clientMetatopics == st.p.clientMetatopics && r.tlog == st.tlog
      && ClientsAt(r.p) == ClientsAt(st.p) + [ClientMTE(identity.name, identity.addr)]
      && 0 in r.p.metaValues && r.p.metaValues == st.p.metaValues[0 := r.p.metaValues[0]]
  {
    hide IsClientPub, IsClientSub, Serviced;
  }

  lemma {:induction false} PairListsOk(a: State, b: State)
    requires ListsOk(a) && b.p.metaValues == a.p.metaValues && b.tlog.names == a.tlog.names && Serviced(b.p.clientMetatopics, b.tlog.names)
    ensures ListsOk(b)
  {
    hide Serviced, HasList, FirstNames;
  }

  lemma {:induction false} ListsServiced(st: State)
    requires ListsOk(st)
    ensures ServicedState(st)
  {
    hide Serviced, FirstNames, KindsOk, KeysOk;
  }

  /** A successful connect appends the name and the address to the list of clients, and touches no other list. */
  lemma {:induction false} ConnectLists(st: State, identity: Identity)
    requires Inv(st) && ListsOk(st)
    ensures var r := ConnectStep(st, identity);
      && ListsOk(r.st) && st.tlog.names <= r.st.tlog.names
      && if identity in st.c.clientMap then r == Result(st, Err(ClientAlreadyExists))
         else
           && r.out == Ok((RenamedIdentity(st.c.clients, identity), st.counters.clientIdx))
           && ClientsAt(r.st.p) == ClientsAt(st.p) + [ClientMTE(r.out.value.0.name, r.out.value.0.addr)]
           && 0 in r.st.p.metaValues && r.st.p.metaValues == st.p.metaValues[0 := r.st.p.metaValues[0]]
           && r.st.p.clientMetatopics - {st.counters.clientIdx} == st.p.clientMetatopics - {st.counters.clientIdx}
  {
    hide Inv, ListsOk, RenamedIdentity, AddTopic, ClientPub, ClientSub, Register, SubsUntouched, SeatsUntouched;
    if identity !in st.c.clientMap {
      ListsServiced(st);
      ConnectServiced(st, identity);
      var renamed := RenamedIdentity(st.c.clients, identity);
      var st1 := Register(st, renamed);
      RegisterLists(st, renamed);
      RegisterInv(st, renamed);
      ClientNames(renamed.name);
      AddTopicLeaf(st1, NewMeta(ClientPub(renamed.name)));
      AddTopicLists(st1, NewMeta(ClientPub(renamed.name)));
      var p := AddTopic(st1, NewMeta(ClientPub(renamed.name)));
      SameListsOk(st1, p.st);
      AddTopicLeaf(p.st, NewMeta(ClientSub(renamed.name)));
      AddTopicLists(p.st, NewMeta(ClientSub(renamed.name)));
      var s := AddTopic(p.st, NewMeta(ClientSub(renamed.name)));
      SameListsOk(p.st, s.st);
      PairListsOk(s.st, ConnectStep(st, identity).st);
    }
  }

  // ---- over whole runs ----

  /** What an operation makes of the list under `k`. */
  function PubsAfter(st: State, op: Op, k: TopicIdx, list: seq<ClientPublisherMTE>): seq<ClientPublisherMTE> {
    match op
    case OpPublish(p, c) =>
      if ListId(st.p, c) == Some(k) && PublishStep(st, p, c).out.Ok? then list + [ClientPublisherMTE(p.name, p.pubuid)] else list
    case OpUnpublish(pubuid, c) =>
      if ListId(st.p, c) == Some(k) && UnpublishStep(st, pubuid, c).out.Ok?
      then Without(list, [ClientPublisherMTE(NameBehind(st, c, pubuid), pubuid)]) else list
    case _ => list
  }

  /** What an operation makes of the list of clients. */
  function ClientsAfter(st: State, op: Op, list: seq<ClientMTE>): seq<ClientMTE> {
    if op.OpConnect? && ConnectStep(st, op.identity).out.Ok? then
      var r := ConnectStep(st, op.identity);
      list + [ClientMTE(r.out.value.0.name, r.out.value.0.addr)]
    else list
  }

  lemma {:induction false} PubsBySame(a: PubTables, b: PubTables, k: TopicIdx)
    requires Same(a, b, k)
    ensures PubsAt(b, k) == PubsAt(a, k) && (k == 0 ==> ClientsAt(b) == ClientsAt(a))
  {}

  /** Operations other than these two kinds of step leave metatopic lists and pairs alone. */
  lemma {:induction false} QuietLists(st: State, op: Op)
    requires Enabled(st, op) && !op.OpConnect? && !op.OpDisconnect? && !op.OpPublish? && !op.OpUnpublish?
    ensures Step(st, op).p == st.p && Step(st, op).tlog.names == st.tlog.names
  {
    hide SubscribeStep, SendOutStep, Queued, Append, Replace, WithoutSub, Updated, SubsUntouched, SeatsUntouched;
    match op
    case OpSubscribe(sub, c, order, now) => SubscribeQuiet(st, sub, c, order, now);
    case OpUnsubscribe(_, _) =>
    case OpSetProperties(_, _) =>
    case OpSetValue(_, _) =>
    case OpClientValue(_, _, _) =>
    case OpSendOut(picks, now) => SendOutFrame(st, picks, now);
  }

  lemma {:induction false} SubscribeQuiet(st: State, sub: Subscription, c: ClientIdx, order: seq<string>, now: nat)
    requires forall n | n in order :: n in st.t.topicMap
    ensures var r := SubscribeStep(st, sub, c, order, now).st; r.p == st.p && r.tlog == st.tlog
  {
    hide Matches, VisitAll, Ids, NewStore, BirthOf, Deliver, BindSub;
  }

  lemma {:induction false} StepLists(st: State, op: Op, k: TopicIdx)
    requires Inv(st) && ListsOk(st) && Enabled(st, op) && HasList(st.tlog.names, k)
    ensures ListsOk(Step(st, op))
    ensures k != 0 ==> PubsAt(Step(st, op).p, k) == PubsAfter(st, op, k, PubsAt(st.p, k))
    ensures k == 0 ==> ClientsAt(Step(st, op).p) == ClientsAfter(st, op, ClientsAt(st.p))
  {
    hide Inv, ListsOk, HasList, ConnectStep, DisconnectStep, PublishStep, UnpublishStep, SubscribeStep, UnsubscribeStep, SetPropertiesStep, SetValueStep, SendOutStep, SubsUntouched, SeatsUntouched, NameBehind, Without;
    match op
    case OpConnect(identity) => ConnectLists(st, identity);
    case OpDisconnect(identity, order) =>
      FirstOfLists(st);
      DisconnectSame(st, identity, order, k);
      FewerOk(st, Step(st, op));
      PubsBySame(st.p, Step(st, op).p, k);
    case OpPublish(p, c) =>
      PublishLists(st, p, c);
      if ListId(st.p, c).Some? {
        ListIdHas(st, c);
      }
    case OpUnpublish(pubuid, c) =>
      UnpublishLists(st, pubuid, c, k);
      if ListId(st.p, c).Some? {
        ListIdHas(st, c);
      }
      if Same(st.p, Step(st, op).p, k) {
        PubsBySame(st.p, Step(st, op).p, k);
      }
    case _ =>
      QuietLists(st, op);
      PairListsOkAgain(st, Step(st, op));
  }

  lemma {:induction false} PairListsOkAgain(a: State, b: State)
    requires ListsOk(a) && b.p == a.p && b.tlog.names == a.tlog.names
    ensures ListsOk(b)
  {
    hide Serviced, HasList, FirstNames, KindsOk, KeysOk;
  }

  lemma {:induction false} FirstOfLists(st: State)
    requires ListsOk(st)
    ensures FirstNames(st.tlog.names)
  {
    hide FirstNames, KindsOk, KeysOk, Serviced;
  }

  lemma {:induction false} InitLists(checks: bool)
    ensures ListsOk(Init(checks)) && Init(checks).p.metaValues == map[]
  {
    hide SubsUntouched, SeatsUntouched, IsClientPub, IsClientSub;
  }

  lemma {:induction false} StartLists(states: seq<State>, ops: seq<Op>)
    requires IsRun(states, ops)
    ensures ListsOk(states[0]) && states[0].p.metaValues == map[]
  {
    hide Step, Enabled, Init, ListsOk;
    var checks :| states[0] == Init(checks);
    InitLists(checks);
  }

  lemma {:induction false} RunLists(states: seq<State>, ops: seq<Op>, j: nat)
    requires IsRun(states, ops) && j <= |ops|
    ensures ListsOk(states[j])
  {
    hide Inv, Init, Step, Enabled, ListsOk, HasList;
    if j == 0 {
      StartLists(states, ops);
    } else {
      RunLists(states, ops, j - 1);
      RunInv(states, ops, j - 1);
      FirstOfLists(states[j - 1]);
      ZeroHasList(states[j - 1].tlog.names);
      StepLists(states[j - 1], ops[j - 1], 0);
    }
  }

  lemma {:induction false} ZeroHasList(names: seq<string>)
    requires FirstNames(names)
    ensures HasList(names, 0)
  {}

  /** The entries under `k` that the operations before `j` leave. */
  function PubsBy(states: seq<State>, ops: seq<Op>, k: TopicIdx, j: nat): seq<ClientPublisherMTE>
    requires |states| == |ops| + 1 && j <= |ops|
  {
    if j == 0 then [] else PubsAfter(states[j - 1], ops[j - 1], k, PubsBy(states, ops, k, j - 1))
  }

  function ClientsBy(states: seq<State>, ops: seq<Op>, j: nat): seq<ClientMTE>
    requires |states| == |ops| + 1 && j <= |ops|
  {
    if j == 0 then [] else ClientsAfter(states[j - 1], ops[j - 1], ClientsBy(states, ops, j - 1))
  }

  /** Before an id has a list nobody writes it. */
  lemma {:induction false} NoListYet(st: State, op: Op, k: TopicIdx)
    requires ListsOk(st) && !HasList(st.tlog.names, k)
    ensures PubsAt(st.p, k) == [] && PubsAfter(st, op, k, []) == []
  {
    hide PublishStep, UnpublishStep, NameBehind, FirstNames;
    match op
    case OpPublish(_, c) => if ListId(st.p, c).Some? { ListIdHas(st, c); }
    case OpUnpublish(_, c) => if ListId(st.p, c).Some? { ListIdHas(st, c); }
    case _ =>
  }

  lemma {:induction false} NewListEmpty(st: State, op: Op, k: TopicIdx)
    requires Inv(st) && ListsOk(st) && Enabled(st, op) && !HasList(st.tlog.names, k)
    ensures PubsAt(Step(st, op).p, k) == []
  {
    hide Inv, ListsOk, HasList, ConnectStep, DisconnectStep, PublishStep, UnpublishStep, SubscribeStep, UnsubscribeStep, SetPropertiesStep, SetValueStep, SendOutStep, SubsUntouched, SeatsUntouched, NameBehind, Without;
    NoListYet(st, op, k);
    FirstOfLists(st);
    ZeroHasList(st.tlog.names);
    match op
    case OpConnect(identity) => ConnectLists(st, identity);
    case OpDisconnect(identity, order) =>
      DisconnectSame(st, identity, order, 0);
    case OpPublish(p, c) =>
      PublishLists(st, p, c);
      if ListId(st.p, c).Some? {
        ListIdHas(st, c);
      }
    case OpUnpublish(pubuid, c) => UnpublishNoNew(st, pubuid, c, k);
    case _ => QuietLists(st, op);
  }

  lemma {:induction false} UnpublishNoNew(st: State, pubuid: PubUID, c: ClientIdx, k: TopicIdx)
    requires Inv(st) && ListsOk(st) && !HasList(st.tlog.names, k)
    ensures PubsAt(UnpublishStep(st, pubuid, c).st.p, k) == []
  {
    hide Inv, HasList, NameBehind, Without, UnpublishStep;
    FirstOfLists(st);
    ZeroHasList(st.tlog.names);
    UnpublishLists(st, pubuid, c, 0);
    var r := UnpublishStep(st, pubuid, c).st;
    assert k in r.p.metaValues ==> HasList(r.tlog.names, k);
  }

  /** What is listed under an id is what the publishes and unpublishes of the clients it belongs to made of it, in order, and no other
      operation of anybody. */
  lemma {:induction false} ListHistory(states: seq<State>, ops: seq<Op>, k: TopicIdx, j: nat)
    requires IsRun(states, ops) && j <= |ops| && k != 0
    ensures PubsAt(states[j].p, k) == PubsBy(states, ops, k, j)
  {
    hide Inv, Init, Step, Enabled, ListsOk, HasList, PubsAfter;
    if j == 0 {
      StartLists(states, ops);
    } else {
      ListHistory(states, ops, k, j - 1);
      RunInv(states, ops, j - 1);
      RunLists(states, ops, j - 1);
      if HasList(states[j - 1].tlog.names, k) {
        StepLists(states[j - 1], ops[j - 1], k);
      } else {
        NoListYet(states[j - 1], ops[j - 1], k);
        NewListEmpty(states[j - 1], ops[j - 1], k);
      }
    }
  }

  /** The list of clients names everyone who connected, in order; nobody is taken out. */
  lemma {:induction false} ClientHistory(states: seq<State>, ops: seq<Op>, j: nat)
    requires IsRun(states, ops) && j <= |ops|
    ensures ClientsAt(states[j].p) == ClientsBy(states, ops, j)
  {
    hide Inv, Init, Step, Enabled, ListsOk, HasList, ClientsAfter;
    if j == 0 {
      StartLists(states, ops);
    } else {
      ClientHistory(states, ops, j - 1);
      RunInv(states, ops, j - 1);
      RunLists(states, ops, j - 1);
      FirstOfLists(states[j - 1]);
      ZeroHasList(states[j - 1].tlog.names);
      StepLists(states[j - 1], ops[j - 1], 0);
    }
  }
}
