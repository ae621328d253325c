/** Runs whose published names contain no `$`: ordinary topics live and die together with their metatopics. */
module Lockstep {
  import opened Basics
  import opened BiMap
  import opened Protocol
  import opened MetaTopic
  import opened SubValue
  import opened ServerModel
  import opened Invariants
  import opened TopicSteps
  import opened ClientSteps
  import opened Handlers

  predicate Ordinary(name: string) {
    '$' !in name
  }

  /** The metatopic name of an ordinary topic. */
  predicate IsMeta(name: string) {
    (StartsWith(name, "$pub$") || StartsWith(name, "$sub$")) && Ordinary(name[5..])
  }

  /** A name the server makes up for itself or for a client. */
  predicate IsService(name: string) {
    StartsWith(name, "$client") || StartsWith(name, "$server")
  }

  predicate IsClientPub(name: string) {
    StartsWith(name, "$clientpub$")
  }

  predicate IsClientSub(name: string) {
    StartsWith(name, "$clientsub$")
  }

  lemma {:induction false} MetaShape(name: string)
    ensures IsMeta(PubMeta(name)) <==> Ordinary(name)
    ensures IsMeta(SubMeta(name)) <==> Ordinary(name)
    ensures !IsService(PubMeta(name)) && !IsService(SubMeta(name))
    ensures !Ordinary(PubMeta(name)) && !Ordinary(SubMeta(name))
  {
    assert PubMeta(name)[5..] == name && SubMeta(name)[5..] == name;
    assert PubMeta(name)[..5] == "$pub$" && SubMeta(name)[..5] == "$sub$";
    assert PubMeta(name)[0] == '$' && SubMeta(name)[0] == '$';
    assert PubMeta(name)[1] == 'p' && SubMeta(name)[1] == 's' && SubMeta(name)[2] == 'u';
    assert "$client"[1] == 'c' && "$server"[1] == 's' && "$server"[2] == 'e';
  }

  lemma {:induction false} MetaInjective(a: string, b: string)
    ensures PubMeta(a) == PubMeta(b) ==> a == b
    ensures SubMeta(a) == SubMeta(b) ==> a == b
    ensures PubMeta(a) != SubMeta(b)
  {
    assert PubMeta(a)[5..] == a && PubMeta(b)[5..] == b && SubMeta(a)[5..] == a && SubMeta(b)[5..] == b;
    assert PubMeta(a)[1] == 'p' && SubMeta(b)[1] == 's';
  }

  lemma {:induction false} MetaDistinct(a: string, b: string)
    requires Ordinary(a) && Ordinary(b) && a != b
    ensures PubMeta(a) !in {b, PubMeta(b), SubMeta(b)} && SubMeta(a) !in {b, PubMeta(b), SubMeta(b)}
    ensures a !in {b, PubMeta(b), SubMeta(b)}
  {
    MetaInjective(a, b);
    MetaInjective(b, a);
    MetaShape(a);
    MetaShape(b);
  }

  lemma {:induction false} ServiceShape(name: string)
    ensures IsService(ClientPub(name)) && IsService(ClientSub(name)) && IsClientPub(ClientPub(name)) && IsClientSub(ClientSub(name))
    ensures !Ordinary(ClientPub(name)) && !Ordinary(ClientSub(name))
  {
    assert ClientPub(name)[..7] == "$client" && ClientSub(name)[..7] == "$client" && ClientPub(name)[..11] == "$clientpub$" && ClientSub(name)[..11] == "$clientsub$";
    assert ClientPub(name)[0] == '$' && ClientSub(name)[0] == '$';
  }

  lemma {:induction false} ServiceNotMeta(name: string)
    requires IsService(name)
    ensures !IsMeta(name) && !Ordinary(name)
  {
    assert name[0] == '$';
    assert name[1] == 'c' || (name[1] == 's' && name[2] == 'e');
  }

  // ---- the invariant ----

  /** Every name in use is an ordinary one, the metatopic of one, or the server's own. */
  predicate Shaped(topicMap: map<string, TopicIdx>) {
    forall n | n in topicMap :: Ordinary(n) || IsMeta(n) || IsService(n)
  }

  /** An ordinary name and its two metatopic names are in use together. */
  ghost predicate InLockstep(topicMap: map<string, TopicIdx>) {
    forall n {:trigger Ordinary(n)} | Ordinary(n) :: (n in topicMap <==> PubMeta(n) in topicMap) && (n in topicMap <==> SubMeta(n) in topicMap)
  }

  /** Names in use stand for live topics, with the exception of `$clientpub$` names, and live topics have names in use.
      Only live topics have cached values. */
  ghost predicate Alive(t: TopicTables) {
    && (forall n | n in t.topicMap && !IsClientPub(n) :: t.topicMap[n] in t.topics)
    && (forall i | i in t.topics :: t.topics[i].name in t.topicMap && t.topicMap[t.topics[i].name] == i)
    && (forall i | i in t.topicValues :: i in t.topics)
  }

  /** A topic lives until its `initial`-th release; its count says how many are missing. Where overflow checks are on,
      what is left of the count of a dead topic is zero. Only ids handed out before are counted. */
  ghost predicate Lifetimes(topics: set<TopicIdx>, pubCount: map<TopicIdx, u16>, g: TopicLog, checks: bool) {
    && |g.names| == |g.initial| == |g.releases|
    && (forall i | i in pubCount :: i < |g.names|)
    && (forall i | 0 <= i < |g.names| && Ordinary(g.names[i]) ::
          && (i in topics <==> g.releases[i] < g.initial[i])
          && (i in topics ==> i in pubCount && pubCount[i] == g.initial[i] - g.releases[i])
          && (checks && i !in topics && i in pubCount ==> pubCount[i] == 0))
  }

  /** The pairs of metatopics kept for clients are a `$clientpub$` one and a `$clientsub$` one. */
  ghost predicate Serviced(clientMetatopics: map<ClientIdx, (TopicIdx, TopicIdx)>, names: seq<string>) {
    forall c | c in clientMetatopics :: IsServicePair(clientMetatopics[c], names)
  }

  predicate IsServicePair(metas: (TopicIdx, TopicIdx), names: seq<string>) {
    && metas.0 < |names| && IsClientPub(names[metas.0])
    && metas.1 < |names| && IsClientSub(names[metas.1])
  }

  /** A service name, once given to an id, stays in use for it. */
  ghost predicate KeptNames(names: seq<string>, topicMap: map<string, TopicIdx>) {
    forall i | 0 <= i < |names| && IsService(names[i]) :: names[i] in topicMap && topicMap[names[i]] == i
  }

  /** Clients publish ordinary topics only. */
  ghost predicate Plain(clients: map<ClientIdx, ConnectedClient>, names: seq<string>) {
    forall c, p | c in clients && p in clients[c].pubs.fwd ::
      clients[c].pubs.fwd[p] < |names| && Ordinary(names[clients[c].pubs.fwd[p]])
  }

  ghost predicate FreeCore(st: State) {
    && Shaped(st.t.topicMap) && InLockstep(st.t.topicMap) && Alive(st.t)
    && Lifetimes(st.t.topics.Keys, st.p.pubCount, st.tlog, st.overflowChecks)
    && Serviced(st.p.clientMetatopics, st.tlog.names)
    && KeptNames(st.tlog.names, st.t.topicMap)
    && Plain(st.c.clients, st.tlog.names)
  }

  /** Every client but the server's own has its metatopics. */
  ghost predicate Equipped(clients: set<ClientIdx>, clientMetatopics: map<ClientIdx, (TopicIdx, TopicIdx)>) {
    forall c | c in clients && c != SERVER_CLIENT_IDX :: c in clientMetatopics
  }

  ghost predicate FreeInv(st: State) {
    FreeCore(st) && Equipped(st.c.clients.Keys, st.p.clientMetatopics)
  }

  // ---- adding ----

  /** The three allocations of a new ordinary topic. */
  function Trio(st: State, topic: Topic): State {
    Alloc(Alloc(Alloc(st, topic), NewMeta(PubMeta(topic.name))), NewMeta(SubMeta(topic.name)))
  }

  /** Only client tables differ, and there only announcements. */
  ghost predicate SamePubs(c: ClientTables, c': ClientTables) {
    && c'.clients.Keys == c.clients.Keys && c'.clientMap == c.clientMap
    && (forall k | k in c.clients :: c'.clients[k].pubs == c.clients[k].pubs && c'.clients[k].subs == c.clients[k].subs)
  }

  lemma {:induction false} RespondFrame(c: ClientTables, i: TopicIdx, topic: Topic, pubuid: PubUID, idx: ClientIdx)
    requires idx in c.clients
    ensures SamePubs(c, Respond(c, i, topic, pubuid, idx))
  {
    hide AnnounceOf;
  }

  lemma {:induction false} ToldFrame(c: ClientTables, whom: set<ClientIdx>, i: TopicIdx, m: Message)
    ensures SamePubs(c, Told(c, whom, i, m))
  {}

  lemma {:induction false} AnnounceFrame(st: State, i: TopicIdx, response: Option<(PubUID, ClientIdx)>)
    ensures var r := AnnounceTopic(st, i, response);
      && r.st == st.(c := r.st.c) && SamePubs(st.c, r.st.c)
      && (r.out.Ok? <==> i in st.t.topics && (response.Some? ==> response.value.1 in st.c.clients))
  {
    hide AnnounceOf, Interested, Respond, Told;
    if AnnounceTopic(st, i, response).out.Ok? {
      var topic := st.t.topics[i];
      var c1 := st.c;
      match response {
        case None =>
        case Some((pubuid, idx)) =>
          RespondFrame(st.c, i, topic, pubuid, idx);
          c1 := Respond(st.c, i, topic, pubuid, idx);
      }
      ToldFrame(c1, Interested(st.s, topic.name), i, AnnounceOf(topic, i, None));
    }
  }

  lemma {:induction false} AllocIgnoresClients(st: State, c: ClientTables, topic: Topic)
    ensures Alloc(st.(c := c), topic) == Alloc(st, topic).(c := c)
  {}

  lemma {:induction false} AddMetaFresh(st: State, name: string)
    requires '$' in name && name !in st.t.topicMap
    ensures var r := AddMeta(st, name);
      r.out.Ok? && r.st == Alloc(st, NewMeta(name)).(c := r.st.c) && SamePubs(st.c, r.st.c)
  {
    var st1 := Alloc(st, NewMeta(name));
    assert AddTopic(st, NewMeta(name)) == Result(st1, Ok(st.counters.topicIdx));
    assert st.counters.topicIdx in st1.t.topics && st1.c == st.c;
    AnnounceFrame(st1, st.counters.topicIdx, None);
    hide Alloc, AnnounceTopic, SamePubs;
  }

  /** Adding a new ordinary topic allocates exactly three ids and succeeds. */
  lemma {:induction false} AddOrdinaryExact(st: State, topic: Topic)
    requires Ordinary(topic.name) && topic.name !in st.t.topicMap
    requires PubMeta(topic.name) !in st.t.topicMap && SubMeta(topic.name) !in st.t.topicMap
    ensures var r := AddTopic(st, topic);
      && r.out == Ok(st.counters.topicIdx)
      && r.st == Trio(st, topic).(c := r.st.c) && SamePubs(st.c, r.st.c)
  {
    hide SubsUntouched, SeatsUntouched;
    var st1 := Alloc(st, topic);
    MetaNames(topic.name);
    MetaInjective(topic.name, topic.name);
    assert st1.t.topicMap == st.t.topicMap[topic.name := st.counters.topicIdx] && st1.c == st.c;
    AddMetaFresh(st1, PubMeta(topic.name));
    var p := AddMeta(st1, PubMeta(topic.name)).st;
    assert p.t.topicMap == st1.t.topicMap[PubMeta(topic.name) := st.counters.topicIdx + 1];
    AddMetaFresh(p, SubMeta(topic.name));
    AllocIgnoresClients(Alloc(st1, NewMeta(PubMeta(topic.name))), p.c, NewMeta(SubMeta(topic.name)));
    hide Alloc, AddMeta, PubMeta, SubMeta, NewMeta;
  }

  lemma {:induction false} TrioNames(topicMap: map<string, TopicIdx>, name: string, i: TopicIdx)
    requires Shaped(topicMap) && InLockstep(topicMap) && Ordinary(name)
    ensures var m := topicMap[name := i][PubMeta(name) := i + 1][SubMeta(name) := i + 2]; Shaped(m) && InLockstep(m)
  {
    MetaShape(name);
    forall n | Ordinary(n) && n != name
      ensures PubMeta(n) !in {name, PubMeta(name), SubMeta(name)} && SubMeta(n) !in {name, PubMeta(name), SubMeta(name)}
      ensures n !in {name, PubMeta(name), SubMeta(name)}
    {
      MetaDistinct(n, name);
    }
    hide PubMeta, SubMeta, IsMeta, IsService;
  }

  lemma {:induction false} AllocAlive(t: TopicTables, topic: Topic, i: TopicIdx)
    requires Alive(t) && topic.name !in t.topicMap && i !in t.topics
    ensures Alive(TopicTables(t.topics[i := topic], t.topicMap[topic.name := i], t.topicSubs[i := []], t.topicValues))
  {
    hide IsClientPub;
  }

  ghost predicate TopicsBelow(t: TopicTables, n: nat) {
    forall i | i in t.topics :: i < n
  }

  lemma {:induction false} AllocAliveState(st: State, topic: Topic)
    requires Alive(st.t) && TopicsBelow(st.t, st.counters.topicIdx) && topic.name !in st.t.topicMap
    ensures var r := Alloc(st, topic);
      && Alive(r.t) && TopicsBelow(r.t, r.counters.topicIdx)
      && r.t.topicMap == st.t.topicMap[topic.name := st.counters.topicIdx]
  {
    hide SubsUntouched, SeatsUntouched;
    AllocAlive(st.t, topic, st.counters.topicIdx);
    hide Alive;
  }

  lemma {:induction false} TopicIdsBelow(t: TopicTables, g: TopicLog, n: nat)
    requires TopicInv(t, g, n)
    ensures TopicsBelow(t, n)
  {
    hide Cached, MapNamed, HaveLists;
  }

  lemma {:induction false} AbsentTogether(topicMap: map<string, TopicIdx>, name: string)
    requires InLockstep(topicMap) && Ordinary(name) && name !in topicMap
    ensures PubMeta(name) !in topicMap && SubMeta(name) !in topicMap
  {
    hide PubMeta, SubMeta;
  }

  lemma {:induction false} TrioAlive(st: State, topic: Topic)
    requires TopicInv(st.t, st.tlog, st.counters.topicIdx) && Alive(st.t) && InLockstep(st.t.topicMap)
    requires Ordinary(topic.name) && topic.name !in st.t.topicMap
    ensures Alive(Trio(st, topic).t)
  {
    hide PubMeta, SubMeta, Alive, TopicInv, InLockstep, TopicsBelow, Alloc, SubsUntouched, SeatsUntouched, Ordinary;
    MetaNames(topic.name);
    TopicIdsBelow(st.t, st.tlog, st.counters.topicIdx);
    AbsentTogether(st.t.topicMap, topic.name);
    AllocAliveState(st, topic);
    var st1 := Alloc(st, topic);
    AllocAliveState(st1, NewMeta(PubMeta(topic.name)));
    AllocAliveState(Alloc(st1, NewMeta(PubMeta(topic.name))), NewMeta(SubMeta(topic.name)));
  }

  /** A fresh ordinary topic has all its releases before it; a metatopic has no lifetime of its own. */
  lemma {:induction false} AllocLifetimes(topics: set<TopicIdx>, pubCount: map<TopicIdx, u16>, g: TopicLog, name: string, k: u16, checks: bool)
    requires Lifetimes(topics, pubCount, g, checks) && k > 0 && forall i | i in topics :: i < |g.names|
    ensures Lifetimes(topics + {|g.names|}, pubCount[|g.names| := k],
                      TopicLog(g.names + [name], g.initial + [k], g.releases + [0], g.accepted + [[]]), checks)
  {}

  lemma {:induction false} AllocLifetimesState(st: State, topic: Topic)
    requires TopicInv(st.t, st.tlog, st.counters.topicIdx) && Lifetimes(st.t.topics.Keys, st.p.pubCount, st.tlog, st.overflowChecks)
    ensures var r := Alloc(st, topic);
      TopicInv(r.t, r.tlog, r.counters.topicIdx) && Lifetimes(r.t.topics.Keys, r.p.pubCount, r.tlog, r.overflowChecks) && st.tlog.names <= r.tlog.names
  {
    AllocTopicInv(st, topic);
    AllocLifetimes(st.t.topics.Keys, st.p.pubCount, st.tlog, topic.name, if topic.HasImplicitPublisher() then 2 else 1, st.overflowChecks);
    assert Alloc(st, topic).t.topics.Keys == st.t.topics.Keys + {st.counters.topicIdx};
    hide Lifetimes, Cached, HaveLists, MapNamed;
  }

  lemma {:induction false} TrioLifetimes(st: State, topic: Topic)
    requires TopicInv(st.t, st.tlog, st.counters.topicIdx) && Lifetimes(st.t.topics.Keys, st.p.pubCount, st.tlog, st.overflowChecks)
    ensures var r := Trio(st, topic); Lifetimes(r.t.topics.Keys, r.p.pubCount, r.tlog, r.overflowChecks) && st.tlog.names <= r.tlog.names
  {
    hide TopicInv, Lifetimes, Alloc, PubMeta, SubMeta;
    AllocLifetimesState(st, topic);
    var st1 := Alloc(st, topic);
    AllocLifetimesState(st1, NewMeta(PubMeta(topic.name)));
    AllocLifetimesState(Alloc(st1, NewMeta(PubMeta(topic.name))), NewMeta(SubMeta(topic.name)));
  }

  lemma {:induction false} PlainLater(clients: map<ClientIdx, ConnectedClient>, clients': map<ClientIdx, ConnectedClient>, names: seq<string>, names': seq<string>)
    requires Plain(clients, names) && names <= names'
    requires forall c | c in clients' :: c in clients && clients'[c].pubs == clients[c].pubs
    ensures Plain(clients', names')
  {}

  lemma {:induction false} ServicedLater(metas: map<ClientIdx, (TopicIdx, TopicIdx)>, names: seq<string>, names': seq<string>)
    requires Serviced(metas, names) && names <= names'
    ensures Serviced(metas, names')
  {
    hide IsClientPub, IsClientSub;
  }

  lemma {:induction false} OrdinaryNotService(name: string)
    requires Ordinary(name)
    ensures !IsService(name) && !IsService(PubMeta(name)) && !IsService(SubMeta(name))
  {
    OrdinaryNotClientPub(name);
    MetaShape(name);
  }

  lemma {:induction false} KeptTrio(names: seq<string>, topicMap: map<string, TopicIdx>, name: string)
    requires KeptNames(names, topicMap) && Ordinary(name)
    ensures KeptNames(names + [name] + [PubMeta(name)] + [SubMeta(name)], topicMap[name := |names|][PubMeta(name) := |names| + 1][SubMeta(name) := |names| + 2])
  {
    OrdinaryNotService(name);
    hide IsService, PubMeta, SubMeta, Ordinary;
  }

  lemma {:induction false} KeptWithout(names: seq<string>, topicMap: map<string, TopicIdx>, name: string)
    requires KeptNames(names, topicMap) && Ordinary(name)
    ensures KeptNames(names, topicMap - {PubMeta(name), SubMeta(name), name})
  {
    OrdinaryNotService(name);
    hide IsService, PubMeta, SubMeta, Ordinary;
  }

  lemma {:induction false} KeptService(names: seq<string>, topicMap: map<string, TopicIdx>, name: string)
    requires KeptNames(names, topicMap) && name !in topicMap
    ensures KeptNames(names + [name], topicMap[name := |names|])
  {
    hide IsService;
  }

  lemma {:induction false} TrioKept(st: State, topic: Topic)
    requires KeptNames(st.tlog.names, st.t.topicMap) && Ordinary(topic.name) && |st.tlog.names| == st.counters.topicIdx
    ensures KeptNames(Trio(st, topic).tlog.names, Trio(st, topic).t.topicMap)
  {
    hide KeptNames, PubMeta, SubMeta, SubsUntouched, SeatsUntouched, Ordinary;
    KeptTrio(st.tlog.names, st.t.topicMap, topic.name);
  }

  lemma {:induction false} TrioFree(st: State, topic: Topic, c': ClientTables)
    requires Inv(st) && FreeCore(st) && Ordinary(topic.name) && topic.name !in st.t.topicMap && SamePubs(st.c, c')
    ensures FreeCore(Trio(st, topic).(c := c'))
  {
    var r := Trio(st, topic);
    TrioNames(st.t.topicMap, topic.name, st.counters.topicIdx);
    assert r.t.topicMap == st.t.topicMap[topic.name := st.counters.topicIdx][PubMeta(topic.name) := st.counters.topicIdx + 1][SubMeta(topic.name) := st.counters.topicIdx + 2];
    TrioAlive(st, topic);
    TrioLifetimes(st, topic);
    PlainLater(st.c.clients, c'.clients, st.tlog.names, r.tlog.names);
    ServicedLater(st.p.clientMetatopics, st.tlog.names, r.tlog.names);
    assert |st.tlog.names| == st.counters.topicIdx by { hide ClientInv, IndexInv, SubInv, MailInv, MapNamed, HaveLists, Cached, TopicsNamed, FreeCore, OwnNames; }
    TrioKept(st, topic);
    assert r.p.clientMetatopics == st.p.clientMetatopics && r.overflowChecks == st.overflowChecks;
    hide Trio, Shaped, InLockstep, Alive, Lifetimes, Plain, Serviced, KeptNames, PubMeta, SubMeta;
  }

  lemma {:induction false} OrdinaryNotClientPub(name: string)
    requires Ordinary(name)
    ensures !IsClientPub(name) && !IsService(name) && !IsMeta(name)
  {
    if |name| > 0 {
      assert name[0] in name;
    }
  }

  lemma {:induction false} AddNewFree(st: State, topic: Topic)
    requires Inv(st) && FreeCore(st) && Ordinary(topic.name) && topic.name !in st.t.topicMap
    ensures var r := AddTopic(st, topic);
      && FreeCore(r.st) && r.out == Ok(st.counters.topicIdx) && st.counters.topicIdx in r.st.t.topics
      && SamePubs(st.c, r.st.c) && r.st.p.clientMetatopics == st.p.clientMetatopics
  {
    assert InLockstep(st.t.topicMap);
    hide Inv, FreeCore, PubMeta, SubMeta;
    AddOrdinaryExact(st, topic);
    TrioFree(st, topic, AddTopic(st, topic).st.c);
    assert st.counters.topicIdx in Trio(st, topic).t.topics && Trio(st, topic).p.clientMetatopics == st.p.clientMetatopics;
    hide Trio, AddTopic;
  }

  lemma {:induction false} AddExisting(st: State, topic: Topic)
    requires topic.name in st.t.topicMap
    ensures AddTopic(st, topic) == Result(st, Ok(st.t.topicMap[topic.name]))
  {}

  lemma {:induction false} SamePubsRefl(c: ClientTables)
    ensures SamePubs(c, c)
  {}

  /** Publishing an ordinary name always finds or makes a live topic. */
  lemma {:induction false} AddOrdinaryFree(st: State, topic: Topic)
    requires Inv(st) && FreeCore(st) && Ordinary(topic.name)
    ensures var r := AddTopic(st, topic);
      && FreeCore(r.st) && r.out.Ok? && r.out.value in r.st.t.topics
      && SamePubs(st.c, r.st.c) && r.st.p.clientMetatopics == st.p.clientMetatopics
  {
    if topic.name in st.t.topicMap {
      OrdinaryNotClientPub(topic.name);
      assert Alive(st.t);
      hide Inv, FreeCore, Alive;
      SamePubsRefl(st.c);
      hide AddTopic, SamePubs;
      AddExisting(st, topic);
    } else {
      hide Inv, FreeCore, AddTopic;
      AddNewFree(st, topic);
    }
  }

  // ---- publishing ----

  /** `FreeCore` speaks of names, counts and publisher uids only. */
  lemma {:induction false} FreeFrame(st: State, st': State)
    requires FreeCore(st)
    requires st'.overflowChecks == st.overflowChecks && st'.t.topics == st.t.topics && st'.t.topicMap == st.t.topicMap
    requires st'.t.topicValues.Keys <= st.t.topicValues.Keys + st.t.topics.Keys
    requires st'.p.pubCount == st.p.pubCount && st'.p.clientMetatopics == st.p.clientMetatopics
    requires st'.tlog.names == st.tlog.names && st'.tlog.initial == st.tlog.initial && st'.tlog.releases == st.tlog.releases
    requires forall c | c in st'.c.clients :: c in st.c.clients && st'.c.clients[c].pubs == st.c.clients[c].pubs
    ensures FreeCore(st')
  {
    hide Plain, Serviced, KeptNames, Shaped, InLockstep, Alive, Lifetimes, IsClientPub;
    PlainLater(st.c.clients, st'.c.clients, st.tlog.names, st'.tlog.names);
    AliveFrame(st.t, st'.t);
    LifetimesFrame(st.t.topics.Keys, st.p.pubCount, st.tlog, st'.tlog, st.overflowChecks);
  }

  lemma {:induction false} AliveFrame(t: TopicTables, t': TopicTables)
    requires Alive(t) && t'.topics == t.topics && t'.topicMap == t.topicMap && t'.topicValues.Keys <= t.topicValues.Keys + t.topics.Keys
    ensures Alive(t')
  {
    hide IsClientPub;
  }

  lemma {:induction false} LifetimesFrame(topics: set<TopicIdx>, pubCount: map<TopicIdx, u16>, g: TopicLog, g': TopicLog, checks: bool)
    requires Lifetimes(topics, pubCount, g, checks) && g'.names == g.names && g'.initial == g.initial && g'.releases == g.releases
    ensures Lifetimes(topics, pubCount, g', checks)
  {
    hide Ordinary;
  }

  lemma {:induction false} WithPubsPlain(clients: map<ClientIdx, ConnectedClient>, idx: ClientIdx, pubs: PrimBiMap<PubUID, TopicIdx>, names: seq<string>)
    requires Plain(clients, names) && idx in clients
    requires forall p | p in pubs.fwd :: pubs.fwd[p] < |names| && Ordinary(names[pubs.fwd[p]])
    ensures Plain(clients[idx := clients[idx].(pubs := pubs)], names)
  {}

  lemma {:induction false} BindPubFree(st: State, c: ClientIdx, pubuid: PubUID, i: TopicIdx, name: string)
    requires FreeCore(st) && c in st.c.clients && i < |st.tlog.names| && Ordinary(st.tlog.names[i])
    ensures FreeCore(BindPub(st, c, pubuid, i, name))
  {
    assert forall p | p in st.c.clients[c].pubs.fwd :: st.c.clients[c].pubs.fwd[p] < |st.tlog.names| && Ordinary(st.tlog.names[st.c.clients[c].pubs.fwd[p]]);
    WithPubsPlain(st.c.clients, c, st.c.clients[c].pubs.Insert(pubuid, i), st.tlog.names);
    hide Shaped, InLockstep, Alive, Lifetimes, Serviced, KeptNames, Plain;
  }

  lemma {:induction false} UnbindPubFree(st: State, c: ClientIdx, pubuid: PubUID)
    requires FreeCore(st) && c in st.c.clients
    ensures FreeCore(UnbindPub(st, c, pubuid))
  {
    assert forall p | p in st.c.clients[c].pubs.fwd :: st.c.clients[c].pubs.fwd[p] < |st.tlog.names| && Ordinary(st.tlog.names[st.c.clients[c].pubs.fwd[p]]);
    WithPubsPlain(st.c.clients, c, st.c.clients[c].pubs.RemoveByLeft(pubuid), st.tlog.names);
    hide Shaped, InLockstep, Alive, Lifetimes, Serviced, KeptNames, Plain;
  }

  lemma {:induction false} UpdatePublishersFree(st: State, c: ClientIdx, entry: ClientPublisherMTE, merge: bool)
    requires FreeCore(st)
    ensures var r := UpdatePublishers(st, c, entry, merge);
      FreeCore(r.st) && (r.out.Ok? <==> c == SERVER_CLIENT_IDX || c in st.p.clientMetatopics)
  {
    FreeFrame(st, UpdatePublishers(st, c, entry, merge).st);
    hide FreeCore;
  }

  /** Publishing an ordinary name succeeds for every client that has its metatopics. */
  lemma {:induction false} PublishFree(st: State, p: PublishTopic, c: ClientIdx)
    requires Inv(st) && FreeCore(st) && Ordinary(p.name)
    ensures var r := PublishStep(st, p, c);
      && FreeCore(r.st) && (r.out.Ok? <==> c in st.c.clients && (c == SERVER_CLIENT_IDX || c in st.p.clientMetatopics))
      && r.st.c.clients.Keys == st.c.clients.Keys && r.st.p.clientMetatopics == st.p.clientMetatopics
  {
    hide Inv, FreeCore, AddTopic, UpdatePublishers, BindPub, AnnounceTopic;
    var topic := FromPublishTopic(p);
    AddOrdinaryFree(st, topic);
    AddTopicInv(st, topic);
    var a := AddTopic(st, topic);
    var i := a.out.value;
    AnnounceFrame(a.st, i, Some((p.pubuid, c)));
    var b := AnnounceTopic(a.st, i, Some((p.pubuid, c)));
    FreeFrame(a.st, b.st);
    if c in st.c.clients {
      BindPubFree(b.st, c, p.pubuid, i, p.name);
      var e := BindPub(b.st, c, p.pubuid, i, p.name);
      BindPubFrame(b.st, c, p.pubuid, i, p.name);
      UpdatePublishersFree(e, c, ClientPublisherMTE(p.name, p.pubuid), true);
      UpdatePublishersFrame(e, c, ClientPublisherMTE(p.name, p.pubuid), true);
    }
  }

  lemma {:induction false} BindPubFrame(st: State, c: ClientIdx, pubuid: PubUID, i: TopicIdx, name: string)
    requires c in st.c.clients
    ensures var r := BindPub(st, c, pubuid, i, name); r.c.clients.Keys == st.c.clients.Keys && r.p == st.p
  {}

  lemma {:induction false} UpdatePublishersFrame(st: State, c: ClientIdx, entry: ClientPublisherMTE, merge: bool)
    ensures var r := UpdatePublishers(st, c, entry, merge).st; r.c == st.c && r.p.clientMetatopics == st.p.clientMetatopics
  {}

  // ---- removing ----

  /** Removing a live ordinary topic succeeds and removes exactly three live topics. */
  lemma {:induction false} RemoveOrdinaryExact(t: TopicTables, g: TopicLog, n: nat, i: TopicIdx)
    requires TopicInv(t, g, n) && InLockstep(t.topicMap) && Alive(t)
    requires i in t.topics && Ordinary(t.topics[i].name)
    ensures var name := t.topics[i].name;
      && PubMeta(name) in t.topicMap && SubMeta(name) in t.topicMap && name in t.topicMap && t.topicMap[name] == i
      && var p, s := t.topicMap[PubMeta(name)], t.topicMap[SubMeta(name)];
      && p in t.topics && s in t.topics && p != i && s != i && p != s
      && Removed(t, i) == (TopicTables(t.topics - {i, p, s}, t.topicMap - {PubMeta(name), SubMeta(name), name}, t.topicSubs - {i, p, s}, t.topicValues - {i}), Some((p, s)))
      && t.topics[p].name == PubMeta(name) && t.topics[s].name == SubMeta(name)
  {
    var name := t.topics[i].name;
    MetaNames(name);
    MetaShape(name);
    assert !IsClientPub(PubMeta(name)) && !IsClientPub(SubMeta(name)) by {
      assert PubMeta(name)[1] == 'p' && SubMeta(name)[1] == 's';
    }
    hide PubMeta, SubMeta, Cached, HaveLists, IsMeta, IsService, IsClientPub, Ordinary;
  }

  /** Removing a service topic fails, after it left the live topics and nothing else. */
  lemma {:induction false} RemoveServiceExact(t: TopicTables, i: TopicIdx)
    requires Shaped(t.topicMap) && i in t.topics && !Ordinary(t.topics[i].name)
    ensures Removed(t, i) == (t.(topics := t.topics - {i}), None)
  {
    MetaShape(t.topics[i].name);
    OrdinaryNotMeta(t.topics[i].name);
    hide PubMeta, SubMeta, IsMeta, IsService, Ordinary;
  }

  lemma {:induction false} OrdinaryNotMeta(name: string)
    ensures !Ordinary(PubMeta(name))
  {
    assert PubMeta(name)[0] == '$';
  }

  lemma {:induction false} LockstepWithout(topicMap: map<string, TopicIdx>, name: string)
    requires Shaped(topicMap) && InLockstep(topicMap) && Ordinary(name)
    ensures var m := topicMap - {PubMeta(name), SubMeta(name), name}; Shaped(m) && InLockstep(m)
  {
    hide PubMeta, SubMeta, IsMeta, IsService;
    var m := topicMap - {PubMeta(name), SubMeta(name), name};
    forall n | Ordinary(n)
      ensures (n in m <==> PubMeta(n) in m) && (n in m <==> SubMeta(n) in m)
    {
      if n != name {
        MetaDistinct(n, name);
      }
    }
  }

  /** Topics whose names contain `$` have no cached values. */
  lemma {:induction false} MetaUncached(t: TopicTables, g: TopicLog, n: nat, i: TopicIdx)
    requires TopicInv(t, g, n) && i < |g.names| && !Ordinary(g.names[i])
    ensures i !in t.topicValues
  {
    hide MapNamed, TopicsNamed;
    assert |g.names| == |g.accepted| && g.accepted[i] == [];
  }

  lemma {:induction false} AliveWithout(t: TopicTables, g: TopicLog, n: nat, i: TopicIdx, p: TopicIdx, s: TopicIdx)
    requires TopicsNamed(t.topics, g.names) && MapNamed(t.topicMap, g.names) && Alive(t) && i in t.topics && p in t.topics && s in t.topics
    requires p !in t.topicValues && s !in t.topicValues
    ensures Alive(TopicTables(t.topics - {i, p, s}, t.topicMap - {t.topics[p].name, t.topics[s].name, t.topics[i].name}, t.topicSubs - {i, p, s}, t.topicValues - {i}))
  {
    hide IsClientPub;
  }

  /** The last release: the topic is gone exactly when its releases reach the initial count. */
  lemma {:induction false} LastRelease(topics: set<TopicIdx>, pubCount: map<TopicIdx, u16>, g: TopicLog, i: TopicIdx, p: TopicIdx, s: TopicIdx, checks: bool)
    requires Lifetimes(topics, pubCount, g, checks) && i in topics && i < |g.names| && Ordinary(g.names[i]) && g.releases[i] + 1 == g.initial[i]
    requires p < |g.names| && s < |g.names| && !Ordinary(g.names[p]) && !Ordinary(g.names[s])
    ensures Lifetimes(topics - {i, p, s}, pubCount[i := 0], g.(releases := Bump(g.releases, i)), checks)
  {
    hide Ordinary;
  }

  lemma {:induction false} EarlyRelease(topics: set<TopicIdx>, pubCount: map<TopicIdx, u16>, g: TopicLog, i: TopicIdx, k: u16, checks: bool)
    requires Lifetimes(topics, pubCount, g, checks) && i < |g.names| && i in pubCount
    requires checks && i !in topics ==> k == pubCount[i]
    requires i in topics && Ordinary(g.names[i]) ==> g.releases[i] + 1 < g.initial[i] && k == pubCount[i] - 1
    ensures Lifetimes(topics, pubCount[i := k], g.(releases := Bump(g.releases, i)), checks)
  {
    hide Ordinary;
  }

  /** Releasing a live topic neither panics nor wraps around. */
  lemma {:induction false} DecrementLive(st: State, i: TopicIdx)
    requires i in st.p.pubCount && st.p.pubCount[i] > 0
    ensures Decrement(st, i) == Result(st.(p := st.p.(pubCount := st.p.pubCount[i := st.p.pubCount[i] - 1]),
                                           tlog := st.tlog.(releases := Bump(st.tlog.releases, i))), Ok(()))
  {}

  lemma {:induction false} ReleaseEarlyFree(st: State, i: TopicIdx)
    requires FreeCore(st) && i in st.p.pubCount && i in st.t.topics && i < |st.tlog.names| && Ordinary(st.tlog.names[i]) && st.p.pubCount[i] > 1
    ensures FreeCore(Release(st, i).st) && Release(st, i) == Decrement(st, i)
  {
    DecrementLive(st, i);
    EarlyRelease(st.t.topics.Keys, st.p.pubCount, st.tlog, i, st.p.pubCount[i] - 1, st.overflowChecks);
    hide Shaped, InLockstep, Alive, Lifetimes, Serviced, KeptNames, Plain, Bump, Decrement, RemoveTopic;
  }

  lemma {:induction false} RemoveOrdinaryFree(t: TopicTables, g: TopicLog, n: nat, i: TopicIdx, pubCount: map<TopicIdx, u16>, checks: bool)
    requires TopicInv(t, g, n) && Shaped(t.topicMap) && InLockstep(t.topicMap) && Alive(t) && Lifetimes(t.topics.Keys, pubCount, g, checks)
    requires KeptNames(g.names, t.topicMap)
    requires i in t.topics && Ordinary(g.names[i]) && g.releases[i] + 1 == g.initial[i]
    ensures var t' := Removed(t, i).0;
      && Shaped(t'.topicMap) && InLockstep(t'.topicMap) && Alive(t') && Lifetimes(t'.topics.Keys, pubCount[i := 0], g.(releases := Bump(g.releases, i)), checks)
      && KeptNames(g.names, t'.topicMap)
      && Removed(t, i).1.Some?
  {
    RemoveOrdinaryExact(t, g, n, i);
    var name := t.topics[i].name;
    var p, s := t.topicMap[PubMeta(name)], t.topicMap[SubMeta(name)];
    MetaNames(name);
    LockstepWithout(t.topicMap, name);
    MetaUncached(t, g, n, p);
    MetaUncached(t, g, n, s);
    AliveWithout(t, g, n, i, p, s);
    LastRelease(t.topics.Keys, pubCount, g, i, p, s, checks);
    KeptWithout(g.names, t.topicMap, name);
    assert (t.topics - {i, p, s}).Keys == t.topics.Keys - {i, p, s};
    hide Removed, PubMeta, SubMeta, Shaped, InLockstep, Alive, Lifetimes, KeptNames, Bump, Cached, HaveLists, Ordinary;
  }

  lemma {:induction false} ReleaseLastShape(st: State, i: TopicIdx)
    requires i in st.p.pubCount && st.p.pubCount[i] == 1 && Removed(st.t, i).1.Some?
    ensures var r := Release(st, i);
      && r.out.Ok? && r.st == st.(t := Removed(st.t, i).0, p := r.st.p, tlog := st.tlog.(releases := Bump(st.tlog.releases, i)))
      && r.st.p.pubCount == st.p.pubCount[i := 0] && r.st.p.clientMetatopics == st.p.clientMetatopics
  {
    DecrementLive(st, i);
    hide Decrement, Removed, Bump;
  }

  lemma {:induction false} ReleaseLastFree(st: State, i: TopicIdx)
    requires Inv(st) && FreeCore(st) && i in st.p.pubCount && i in st.t.topics && Ordinary(st.tlog.names[i]) && st.p.pubCount[i] == 1
    ensures var r := Release(st, i);
      && FreeCore(r.st) && r.out.Ok? && r.st.c == st.c && r.st.p.clientMetatopics == st.p.clientMetatopics
      && r.st.tlog == st.tlog.(releases := Bump(st.tlog.releases, i))
      && r.st.t == Removed(st.t, i).0
  {
    RemoveOrdinaryFree(st.t, st.tlog, st.counters.topicIdx, i, st.p.pubCount, st.overflowChecks);
    ReleaseLastShape(st, i);
    hide Release, Inv, Shaped, InLockstep, Alive, Lifetimes, Serviced, KeptNames, Plain, Bump, Removed;
  }

  lemma {:induction false} ReleaseLiveFree(st: State, i: TopicIdx)
    requires Inv(st) && FreeCore(st) && i in st.p.pubCount && i in st.t.topics && Ordinary(st.tlog.names[i])
    ensures var r := Release(st, i);
      && FreeCore(r.st) && r.out.Ok? && r.st.c == st.c && r.st.p.clientMetatopics == st.p.clientMetatopics
      && r.st.tlog == st.tlog.(releases := Bump(st.tlog.releases, i))
  {
    assert st.p.pubCount[i] > 0;
    if st.p.pubCount[i] == 1 {
      hide Inv, FreeCore, Release;
      ReleaseLastFree(st, i);
    } else {
      hide Inv, FreeCore, Release;
      ReleaseEarlyFree(st, i);
      DecrementLive(st, i);
    }
  }

  lemma {:induction false} DeadCount(st: State, i: TopicIdx)
    requires FreeCore(st) && i in st.p.pubCount && i !in st.t.topics && i < |st.tlog.names| && Ordinary(st.tlog.names[i])
    ensures st.overflowChecks ==> st.p.pubCount[i] == 0
  {
    hide Shaped, InLockstep, Alive, Serviced, KeptNames, Plain, Ordinary;
  }

  /** Releasing a dead topic changes nothing but its count. */
  lemma {:induction false} ReleaseDeadFree(st: State, i: TopicIdx)
    requires FreeCore(st) && i in st.p.pubCount && i !in st.t.topics && i < |st.tlog.names| && Ordinary(st.tlog.names[i])
    ensures var r := Release(st, i);
      && FreeCore(r.st) && r.st.t == st.t && r.st.c == st.c && r.st.p.clientMetatopics == st.p.clientMetatopics
      && (r.st.tlog == st.tlog || r.st.tlog == st.tlog.(releases := Bump(st.tlog.releases, i)))
  {
    if !(st.p.pubCount[i] == 0 && st.overflowChecks) {
      DeadCount(st, i);
      EarlyRelease(st.t.topics.Keys, st.p.pubCount, st.tlog, i, Decrement(st, i).st.p.pubCount[i], st.overflowChecks);
    }
    hide Shaped, InLockstep, Alive, Lifetimes, Serviced, KeptNames, Plain, Bump;
  }

  lemma {:induction false} ReleaseFree(st: State, i: TopicIdx)
    requires Inv(st) && FreeCore(st) && i in st.p.pubCount && i < |st.tlog.names| && Ordinary(st.tlog.names[i])
    ensures var r := Release(st, i);
      && FreeCore(r.st) && r.st.c == st.c && r.st.p.clientMetatopics == st.p.clientMetatopics && r.st.tlog.names == st.tlog.names
      && (i in st.t.topics ==> r.out.Ok?)
  {
    hide Inv, FreeCore, Release, Bump;
    if i in st.t.topics {
      ReleaseLiveFree(st, i);
    } else {
      ReleaseDeadFree(st, i);
    }
  }

  lemma {:induction false} DropZero(topics: set<TopicIdx>, pubCount: map<TopicIdx, u16>, g: TopicLog, i: TopicIdx, checks: bool)
    requires Lifetimes(topics, pubCount, g, checks) && i in pubCount && pubCount[i] == 0
    ensures Lifetimes(topics, pubCount - {i}, g, checks)
  {
    hide Ordinary;
  }

  lemma {:induction false} DropCountFree(st: State, i: TopicIdx)
    requires FreeCore(st)
    ensures FreeCore(DropCount(st, i)) && DropCount(st, i).c == st.c && DropCount(st, i).p.clientMetatopics == st.p.clientMetatopics
  {
    hide Shaped, InLockstep, Alive, Lifetimes, Serviced, KeptNames, Plain, SubsUntouched, SeatsUntouched;
    if i in st.p.pubCount && st.p.pubCount[i] == 0 {
      DropZero(st.t.topics.Keys, st.p.pubCount, st.tlog, i, st.overflowChecks);
    }
  }

  lemma {:induction false} UnbindPubFrame(st: State, c: ClientIdx, pubuid: PubUID)
    requires c in st.c.clients
    ensures var r := UnbindPub(st, c, pubuid); r == st.(c := r.c) && r.c.clients.Keys == st.c.clients.Keys
  {}

  lemma {:induction false} PubIsPlain(st: State, c: ClientIdx, pubuid: PubUID)
    requires FreeCore(st) && c in st.c.clients && pubuid in st.c.clients[c].pubs.fwd
    ensures st.c.clients[c].pubs.fwd[pubuid] < |st.tlog.names| && Ordinary(st.tlog.names[st.c.clients[c].pubs.fwd[pubuid]])
  {
    hide Ordinary, Lifetimes, Alive;
  }

  lemma {:induction false} UnpublishFree(st: State, pubuid: PubUID, c: ClientIdx)
    requires Inv(st) && FreeInv(st)
    ensures FreeInv(UnpublishStep(st, pubuid, c).st)
  {
    hide Inv, FreeCore, Release, DropCount, UpdatePublishers, UnbindPub, Ordinary;
    if c in st.c.clients && pubuid in st.c.clients[c].pubs.fwd {
      var i := st.c.clients[c].pubs.fwd[pubuid];
      PubIsPlain(st, c, pubuid);
      var st1 := UnbindPub(st, c, pubuid);
      UnbindPubInv(st, c, pubuid);
      UnbindPubFree(st, c, pubuid);
      UnbindPubFrame(st, c, pubuid);
      if i in st1.p.pubCount {
        ReleaseFree(st1, i);
        var r := Release(st1, i);
        DropCountFree(r.st, i);
        var name := if i in st.t.topics then st.t.topics[i].name else "";
        UpdatePublishersFree(DropCount(r.st, i), c, ClientPublisherMTE(name, pubuid), false);
        UpdatePublishersFrame(DropCount(r.st, i), c, ClientPublisherMTE(name, pubuid), false);
      }
    }
  }

  // ---- leaving ----

  lemma {:induction false} ReleaseAllFree(st: State, pubs: map<PubUID, TopicIdx>, order: seq<PubUID>)
    requires Inv(st) && FreeCore(st)
    requires forall p | p in order :: p in pubs && pubs[p] < |st.tlog.names| && Ordinary(st.tlog.names[pubs[p]])
    ensures var r := ReleaseAll(st, pubs, order);
      && FreeCore(r.st) && r.st.c == st.c && r.st.p.clientMetatopics == st.p.clientMetatopics && r.st.tlog.names == st.tlog.names
  {
    hide Inv, FreeCore, Release, Ordinary;
    if order != [] {
      var front, last := order[..|order| - 1], order[|order| - 1];
      assert last in order;
      ReleaseAllFree(st, pubs, front);
      ReleaseAllInv(st, pubs, front);
      var before := ReleaseAll(st, pubs, front);
      if pubs[last] in before.st.p.pubCount {
        ReleaseFree(before.st, pubs[last]);
      }
    }
  }

  lemma {:induction false} AliveWithoutService(t: TopicTables, names: seq<string>, i: TopicIdx)
    requires Alive(t) && MapNamed(t.topicMap, names) && i < |names| && IsClientPub(names[i]) && i !in t.topicValues
    ensures Alive(t.(topics := t.topics - {i}))
  {
    hide IsClientPub;
  }

  lemma {:induction false} LifetimesWithoutService(topics: set<TopicIdx>, i: TopicIdx, pubCount: map<TopicIdx, u16>, g: TopicLog, checks: bool)
    requires Lifetimes(topics, pubCount, g, checks) && i < |g.names| && !Ordinary(g.names[i])
    ensures Lifetimes(topics - {i}, pubCount, g, checks)
  {
    hide Ordinary;
  }

  lemma {:induction false} ClientPubNotOrdinary(name: string)
    requires IsClientPub(name)
    ensures !Ordinary(name)
  {
    assert name[0] == '$';
  }

  lemma {:induction false} RemoveServiceFree(t: TopicTables, i: TopicIdx, pubCount: map<TopicIdx, u16>, g: TopicLog, checks: bool)
    requires Shaped(t.topicMap) && InLockstep(t.topicMap) && Alive(t) && TopicsNamed(t.topics, g.names) && MapNamed(t.topicMap, g.names)
    requires Lifetimes(t.topics.Keys, pubCount, g, checks) && i < |g.names| && IsClientPub(g.names[i]) && i !in t.topicValues
    ensures var t' := Removed(t, i).0;
      && t'.topicMap == t.topicMap && Alive(t') && Lifetimes(t'.topics.Keys, pubCount, g, checks) && Removed(t, i).1.None?
      && t' == t.(topics := t.topics - {i})
  {
    if i in t.topics {
      ClientPubNotOrdinary(g.names[i]);
      RemoveServiceExact(t, i);
      AliveWithoutService(t, g.names, i);
      LifetimesWithoutService(t.topics.Keys, i, pubCount, g, checks);
      assert (t.topics - {i}).Keys == t.topics.Keys - {i};
      hide Removed, Shaped, InLockstep, IsClientPub, Ordinary, Alive, Lifetimes;
    } else {
      assert Removed(t, i) == (t, None) && t.topics - {i} == t.topics;
      hide Removed, Shaped, InLockstep, IsClientPub, Ordinary, Alive, Lifetimes;
    }
  }

  lemma {:induction false} FirstMetatopic(st: State, idx: ClientIdx)
    requires Inv(st) && FreeCore(st) && idx in st.p.clientMetatopics
    ensures var i := st.p.clientMetatopics[idx].0;
      && i < |st.tlog.names| && IsClientPub(st.tlog.names[i]) && i !in st.t.topicValues
      && TopicsNamed(st.t.topics, st.tlog.names) && MapNamed(st.t.topicMap, st.tlog.names)
  {
    hide OwnNames, ClientInv, IndexInv, SubInv, MailInv, Shaped, InLockstep, Alive, Lifetimes, KeptNames, Plain, Ordinary, IsClientPub, IsClientSub;
    var metas := st.p.clientMetatopics[idx];
    assert IsServicePair(metas, st.tlog.names);
    ClientPubNotOrdinary(st.tlog.names[metas.0]);
    MetaUncached(st.t, st.tlog, st.counters.topicIdx, metas.0);
  }

  lemma {:induction false} DropShape(st: State, idx: ClientIdx)
    requires idx in st.p.clientMetatopics && Removed(st.t, st.p.clientMetatopics[idx].0).1.None?
    ensures DropMetatopics(st, idx) ==
      Result(st.(t := Removed(st.t, st.p.clientMetatopics[idx].0).0, p := st.p.(clientMetatopics := st.p.clientMetatopics - {idx})), Err(TopicDoesNotExist))
  {
    hide Removed, SubsUntouched, SeatsUntouched;
  }

  /** Dropping a client's metatopics stops at the first one. */
  lemma {:induction false} DropMetatopicsFree(st: State, idx: ClientIdx)
    requires Inv(st) && FreeCore(st)
    ensures var r := DropMetatopics(st, idx);
      && FreeCore(r.st) && r.st.c == st.c && r.st.p.clientMetatopics == st.p.clientMetatopics - {idx} && r.st.t.topicMap == st.t.topicMap
      && (r.out.Ok? <==> idx !in st.p.clientMetatopics)
      && (idx in st.p.clientMetatopics ==> r.out == Err(TopicDoesNotExist) && st.p.clientMetatopics[idx].0 !in r.st.t.topics)
  {
    hide Inv, Removed, Shaped, InLockstep, Alive, Lifetimes, KeptNames, Plain, IsServicePair, SubsUntouched, SeatsUntouched;
    if idx in st.p.clientMetatopics {
      FirstMetatopic(st, idx);
      RemoveServiceFree(st.t, st.p.clientMetatopics[idx].0, st.p.pubCount, st.tlog, st.overflowChecks);
      DropShape(st, idx);
      hide DropMetatopics;
    } else {
      assert st.p.clientMetatopics - {idx} == st.p.clientMetatopics;
    }
  }

  lemma {:induction false} UnregisterFrame(st: State, identity: Identity)
    requires identity in st.c.clientMap
    ensures var r := Unregister(st, identity);
      && r == st.(c := r.c) && r.c.clients == st.c.clients - {st.c.clientMap[identity]}
      && r.c.clients.Keys == st.c.clients.Keys - {st.c.clientMap[identity]}
  {}

  /** What is left to do once the client is out of the tables. */
  function Leave(st: State, pubs: map<PubUID, TopicIdx>, order: seq<PubUID>, idx: ClientIdx): Result<()>
    requires forall p | p in order :: p in pubs
  {
    var r := ReleaseAll(st, pubs, order);
    if r.out.Err? then r else DropMetatopics(r.st, idx)
  }

  lemma {:induction false} LeaveFree(st: State, pubs: map<PubUID, TopicIdx>, order: seq<PubUID>, idx: ClientIdx)
    requires Inv(st) && FreeCore(st)
    requires forall p | p in order :: p in pubs && pubs[p] < |st.tlog.names| && Ordinary(st.tlog.names[pubs[p]])
    ensures var r := Leave(st, pubs, order, idx);
      && FreeCore(r.st) && r.st.c == st.c
      && (r.st.p.clientMetatopics == st.p.clientMetatopics || r.st.p.clientMetatopics == st.p.clientMetatopics - {idx})
  {
    hide Inv, FreeCore, ReleaseAll, DropMetatopics, Ordinary, SubsUntouched, SeatsUntouched;
    ReleaseAllFree(st, pubs, order);
    ReleaseAllInv(st, pubs, order);
    DropMetatopicsFree(ReleaseAll(st, pubs, order).st, idx);
  }

  lemma {:induction false} UnregisterFree(st: State, identity: Identity)
    requires Inv(st) && FreeCore(st) && identity in st.c.clientMap
    ensures Inv(Unregister(st, identity)) && FreeCore(Unregister(st, identity))
  {
    UnregisterInv(st, identity);
    UnregisterFrame(st, identity);
    hide Inv, FreeCore, Unregister, SubsUntouched;
    FreeFrame(st, Unregister(st, identity));
  }

  lemma {:induction false} DisconnectShape(st: State, identity: Identity, order: seq<PubUID>)
    requires identity in st.c.clientMap && st.c.clientMap[identity] in st.c.clients
    requires forall p | p in order :: p in PubsOf(st.c, identity)
    ensures DisconnectStep(st, identity, order) == Leave(Unregister(st, identity), PubsOf(st.c, identity), order, st.c.clientMap[identity])
  {
    hide Unregister, ReleaseAll, DropMetatopics, SubsUntouched, SeatsUntouched;
  }

  lemma {:induction false} PubsArePlain(st: State, identity: Identity, order: seq<PubUID>)
    requires FreeCore(st) && Enumerates(order, PubsOf(st.c, identity).Keys)
    ensures forall p | p in order ::
      p in PubsOf(st.c, identity) && PubsOf(st.c, identity)[p] < |st.tlog.names| && Ordinary(st.tlog.names[PubsOf(st.c, identity)[p]])
  {
    hide FreeCore, Ordinary;
    forall p | p in order
      ensures PubsOf(st.c, identity)[p] < |st.tlog.names| && Ordinary(st.tlog.names[PubsOf(st.c, identity)[p]])
    {
      PubIsPlain(st, st.c.clientMap[identity], p);
    }
  }

  lemma {:induction false} MappedConnected(st: State, identity: Identity)
    requires Inv(st) && identity in st.c.clientMap
    ensures st.c.clientMap[identity] in st.c.clients
  {
    hide TopicInv, IndexInv, SubInv, MailInv, Routed, Owned;
  }

  lemma {:induction false} DisconnectFree(st: State, identity: Identity, order: seq<PubUID>)
    requires Inv(st) && FreeInv(st) && Enumerates(order, PubsOf(st.c, identity).Keys)
    ensures FreeInv(DisconnectStep(st, identity, order).st)
  {
    if identity in st.c.clientMap {
      PubsArePlain(st, identity, order);
      MappedConnected(st, identity);
      DisconnectShape(st, identity, order);
      UnregisterFrame(st, identity);
      hide Inv, FreeCore, DisconnectStep, Unregister, Leave, PubsOf, Ordinary, Enumerates, SubsUntouched;
      UnregisterFree(st, identity);
      LeaveFree(Unregister(st, identity), PubsOf(st.c, identity), order, st.c.clientMap[identity]);
    }
  }

  // ---- arriving ----

  lemma {:induction false} ServiceNames(topicMap: map<string, TopicIdx>, name: string, i: TopicIdx)
    requires Shaped(topicMap) && InLockstep(topicMap) && IsService(name)
    ensures Shaped(topicMap[name := i]) && InLockstep(topicMap[name := i])
  {
    ServiceNotMeta(name);
    forall n | Ordinary(n) ensures PubMeta(n) != name && SubMeta(n) != name && n != name {
      MetaShape(n);
    }
    hide PubMeta, SubMeta, IsMeta, IsService;
  }

  lemma {:induction false} AllocServiceFree(st: State, name: string)
    requires TopicInv(st.t, st.tlog, st.counters.topicIdx) && FreeCore(st) && IsService(name) && name !in st.t.topicMap
    ensures var r := Alloc(st, NewMeta(name));
      && FreeCore(r) && r.c == st.c && r.p.clientMetatopics == st.p.clientMetatopics && st.tlog.names <= r.tlog.names
      && TopicInv(r.t, r.tlog, r.counters.topicIdx)
  {
    var r := Alloc(st, NewMeta(name));
    ServiceNames(st.t.topicMap, name, st.counters.topicIdx);
    AllocAlive(st.t, NewMeta(name), st.counters.topicIdx);
    AllocLifetimesState(st, NewMeta(name));
    PlainLater(st.c.clients, st.c.clients, st.tlog.names, r.tlog.names);
    ServicedLater(st.p.clientMetatopics, st.tlog.names, r.tlog.names);
    KeptService(st.tlog.names, st.t.topicMap, name);
    hide TopicInv, Shaped, InLockstep, Alive, Lifetimes, Serviced, KeptNames, Plain, IsService;
  }

  lemma {:induction false} AddServiceFree(st: State, name: string)
    requires Inv(st) && FreeCore(st) && IsService(name)
    ensures var r := AddTopic(st, NewMeta(name));
      && FreeCore(r.st) && r.out.Ok? && r.st.c == st.c && r.st.p.clientMetatopics == st.p.clientMetatopics && st.tlog.names <= r.st.tlog.names
  {
    ServiceNotMeta(name);
    if name in st.t.topicMap {
      AddExisting(st, NewMeta(name));
      hide AddTopic, Inv, FreeCore;
    } else {
      AllocServiceFree(st, name);
      hide Inv, FreeCore, Alloc;
      assert AddTopic(st, NewMeta(name)) == Result(Alloc(st, NewMeta(name)), Ok(st.counters.topicIdx));
      hide AddTopic;
    }
  }

  lemma {:induction false} RegisterFree(st: State, identity: Identity)
    requires Inv(st) && FreeCore(st)
    ensures FreeCore(Register(st, identity))
  {
    var r := Register(st, identity);
    assert Plain(r.c.clients, r.tlog.names);
    hide Inv, Shaped, InLockstep, Alive, Lifetimes, Serviced, KeptNames, Plain;
  }

  lemma {:induction false} ConnectFree(st: State, identity: Identity)
    requires Inv(st) && FreeInv(st)
    ensures FreeInv(ConnectStep(st, identity).st)
  {
    hide Inv, FreeCore, RenamedIdentity, AddTopic, ClientPub, ClientSub, IsClientPub, IsClientSub;
    if identity !in st.c.clientMap {
      var renamed := RenamedIdentity(st.c.clients, identity);
      var idx := st.counters.clientIdx;
      var st1 := Register(st, renamed);
      assert st1.c.clients.Keys == st.c.clients.Keys + {idx} && st1.p.clientMetatopics == st.p.clientMetatopics;
      RegisterInv(st, renamed);
      RegisterFree(st, renamed);
      hide Register;
      ServiceShape(renamed.name);
      AddServiceFree(st1, ClientPub(renamed.name));
      AddTopicLeaf(st1, NewMeta(ClientPub(renamed.name)));
      var p := AddTopic(st1, NewMeta(ClientPub(renamed.name)));
      AddServiceFree(p.st, ClientSub(renamed.name));
      AddTopicLeaf(p.st, NewMeta(ClientSub(renamed.name)));
      var s := AddTopic(p.st, NewMeta(ClientSub(renamed.name)));
      EquipFree(s.st, idx, p.out.value, s.out.value);
    }
  }

  lemma {:induction false} EquipFree(st: State, idx: ClientIdx, p: TopicIdx, s: TopicIdx)
    requires FreeCore(st) && IsServicePair((p, s), st.tlog.names)
    ensures FreeCore(st.(p := st.p.(clientMetatopics := st.p.clientMetatopics[idx := (p, s)])))
  {
    assert Serviced(st.p.clientMetatopics[idx := (p, s)], st.tlog.names);
    hide Shaped, InLockstep, Alive, Lifetimes, Serviced, KeptNames, Plain;
  }
}
