/** src/server/inner.rs: the server's state as a value, and what each handler does to it. */
module ServerModel {
  import opened Basics
  import opened BiMap
  import opened Protocol
  import opened MetaTopic
  import opened SubValue

  const CLIENT_METATOPIC: TopicIdx := 0
  const SERVER_PUB_METATOPIC: TopicIdx := 2
  const SERVER_CLIENT_IDX: ClientIdx := 0

  datatype ServerError =
    | ClientDoesNotExist
    | ClientAlreadyExists
    | TopicDoesNotExist
    | SubscriptionDoesNotExist
    | NotNormalTopic
    | Overflow // not an error value: the panic of a checked subtraction

  datatype Outcome<+T> = Ok(value: T) | Err(error: ServerError)

  datatype ConnectedClient = ConnectedClient(
    identity: Identity,
    pubs: PrimBiMap<PubUID, TopicIdx>,
    subs: PrimBiMap<SubUID, SubIdx>,
    hasOutput: bool,
    announced: set<TopicIdx>)

  datatype TopicTables = TopicTables(
    topics: map<TopicIdx, Topic>,
    topicMap: map<string, TopicIdx>,
    topicSubs: map<TopicIdx, seq<SubIdx>>,
    topicValues: map<TopicIdx, TimestampedValue>)

  datatype PubTables = PubTables(
    pubCount: map<TopicIdx, u16>,
    metaValues: map<TopicIdx, MetaTopicValue>,
    clientMetatopics: map<ClientIdx, (TopicIdx, TopicIdx)>)

  /** `outboxes` holds everything sent to each client's output channel, also after it left. */
  datatype ClientTables = ClientTables(
    clientMap: map<Identity, ClientIdx>,
    clients: map<ClientIdx, ConnectedClient>,
    outboxes: map<ClientIdx, seq<Message>>)

  datatype SubTables = SubTables(
    subscriptions: map<SubIdx, (Subscription, ClientIdx)>,
    subValues: map<SubIdx, StoredSubValue>,
    sendTimes: map<SubIdx, nat>)

  /** History no handler reads, by topic id: the name and the publisher count of its allocation, the
      decrements of that count, and the values accepted. */
  datatype TopicLog = TopicLog(
    names: seq<string>,
    initial: seq<nat>,
    releases: seq<nat>,
    accepted: seq<seq<TimestampedValue>>)

  /** What was true when a subscription was made: the values accepted so far for each topic id
      allocated so far, the topic ids it was listed for, and the cached values sent to it. */
  datatype Birth = Birth(seen: seq<seq<TimestampedValue>>, listed: set<TopicIdx>, cached: map<TopicIdx, TimestampedValue>)

  /** More history: how subscriptions began, what was sent for each, and the names published. */
  datatype Log = Log(
    births: map<SubIdx, Birth>,
    drained: map<SubIdx, map<TopicIdx, seq<TimestampedValue>>>,
    lastPublished: map<(ClientIdx, PubUID), string>)

  datatype State = State(
    overflowChecks: bool,
    counters: Counter,
    t: TopicTables,
    p: PubTables,
    c: ClientTables,
    s: SubTables,
    tlog: TopicLog,
    log: Log)

  datatype Result<+T> = Result(st: State, out: Outcome<T>)

  /** Subscriptions and accepted values are as before; topics allocated since have none. */
  predicate SubsUntouched(a: State, b: State) {
    && b.overflowChecks == a.overflowChecks && b.s == a.s && b.counters.subIdx == a.counters.subIdx
    && b.log.births == a.log.births && b.log.drained == a.log.drained
    && a.tlog.accepted <= b.tlog.accepted
    && (forall i | |a.tlog.accepted| <= i < |b.tlog.accepted| :: b.tlog.accepted[i] == [])
  }

  /** The same clients are connected, with the same metatopics. */
  predicate SeatsUntouched(a: State, b: State) {
    b.c.clients.Keys == a.c.clients.Keys && b.p.clientMetatopics == a.p.clientMetatopics
  }

  // ---- topics ----

  /** The body of `add_topic` up to the point where metatopics return. */
  function Alloc(st: State, topic: Topic): (r: State)
    ensures SubsUntouched(st, r) && SeatsUntouched(st, r) && r.log == st.log
  {
    var i := st.counters.topicIdx;
    var k: u16 := if topic.HasImplicitPublisher() then 2 else 1;
    st.(counters := st.counters.NextTopic(),
        t := TopicTables(st.t.topics[i := topic], st.t.topicMap[topic.name := i], st.t.topicSubs[i := []], st.t.topicValues),
        p := st.p.(pubCount := st.p.pubCount[i := k]),
        tlog := TopicLog(st.tlog.names + [topic.name], st.tlog.initial + [k], st.tlog.releases + [0], st.tlog.accepted + [[]]))
  }

  function AddTopic(st: State, topic: Topic): (r: Result<TopicIdx>)
    decreases if '$' in topic.name then 0 else 1, 0
    ensures SubsUntouched(st, r.st) && SeatsUntouched(st, r.st) && r.st.log == st.log
  {
    if topic.name in st.t.topicMap then Result(st, Ok(st.t.topicMap[topic.name]))
    else if '$' in topic.name then Result(Alloc(st, topic), Ok(st.counters.topicIdx))
    else
      var p := AddMeta(Alloc(st, topic), PubMeta(topic.name));
      if p.out.Err? then Result(p.st, Err(p.out.error))
      else
        var s := AddMeta(p.st, SubMeta(topic.name));
        if s.out.Err? then Result(s.st, Err(s.out.error)) else Result(s.st, Ok(st.counters.topicIdx))
  }

  /** `self.announce_topic(self.add_topic(meta).await?, None).await?` */
  function AddMeta(st: State, name: string): (r: Result<()>)
    requires '$' in name
    decreases 0, 1
    ensures SubsUntouched(st, r.st) && SeatsUntouched(st, r.st) && r.st.log == st.log
  {
    var r := AddTopic(st, NewMeta(name));
    if r.out.Err? then Result(r.st, Err(r.out.error)) else AnnounceTopic(r.st, r.out.value, None)
  }

  /** Sends to a client's output channel; the server pseudo-client has none. */
  function Deliver(c: ClientTables, idx: ClientIdx, ms: seq<Message>): ClientTables {
    if idx in c.clients && c.clients[idx].hasOutput then
      c.(outboxes := c.outboxes[idx := GetOr(c.outboxes, idx, []) + ms])
    else c
  }

  function MarkAnnounced(client: ConnectedClient, i: TopicIdx): ConnectedClient {
    client.(announced := client.announced + {i})
  }

  function AnnounceOf(topic: Topic, i: TopicIdx, pubuid: Option<i32>): Message {
    Text([Announcement(Announce(topic.name, i, topic.kind, pubuid, UnwrapOr(topic.properties, DEFAULT_PROPERTIES)))])
  }

  /** The announcement that answers a publish, once per client and topic. */
  function Respond(c: ClientTables, i: TopicIdx, topic: Topic, pubuid: PubUID, idx: ClientIdx): ClientTables
    requires idx in c.clients
  {
    if i in c.clients[idx].announced then c
    else
      var told := Deliver(c, idx, [AnnounceOf(topic, i, Some(AsI32(pubuid)))]);
      told.(clients := c.clients[idx := MarkAnnounced(c.clients[idx], i)])
  }

  /** The clients with a subscription that matches a name. */
  function Interested(s: SubTables, name: string): set<ClientIdx> {
    set k | k in s.subscriptions && s.subscriptions[k].0.CaresAbout(name) :: s.subscriptions[k].1
  }

  /** The client tables once every client in `whom` has been told about topic `i`. */
  function Told(c: ClientTables, whom: set<ClientIdx>, i: TopicIdx, m: Message): ClientTables {
    c.(clients := map k | k in c.clients :: if k in whom then MarkAnnounced(c.clients[k], i) else c.clients[k],
       outboxes := map k | k in c.outboxes :: if k in whom && k in c.clients then c.outboxes[k] + [m] else c.outboxes[k])
  }

  function AnnounceTopic(st: State, i: TopicIdx, response: Option<(PubUID, ClientIdx)>): (r: Result<()>)
    ensures SubsUntouched(st, r.st) && SeatsUntouched(st, r.st) && r.st.log == st.log
  {
    if i !in st.t.topics then Result(st, Err(TopicDoesNotExist))
    else if response.Some? && response.value.1 !in st.c.clients then Result(st, Err(ClientDoesNotExist))
    else
      var topic := st.t.topics[i];
      var c1 := if response.Some? then Respond(st.c, i, topic, response.value.0, response.value.1) else st.c;
      Result(st.(c := Told(c1, Interested(st.s, topic.name), i, AnnounceOf(topic, i, None))), Ok(()))
  }

  /** What `remove_topic` leaves of the topic tables, in each of its four exits. */
  function Removed(t: TopicTables, i: TopicIdx): (TopicTables, Option<(TopicIdx, TopicIdx)>) {
    if i !in t.topics then (t, None)
    else
      var name := t.topics[i].name;
      var t1 := t.(topics := t.topics - {i});
      if PubMeta(name) !in t.topicMap then (t1, None)
      else
        var t2 := t1.(topicMap := t.topicMap - {PubMeta(name)});
        if SubMeta(name) !in t2.topicMap then (t2, None)
        else
          var p, s := t.topicMap[PubMeta(name)], t.topicMap[SubMeta(name)];
          (TopicTables(t.topics - {i, p, s}, t.topicMap - {PubMeta(name), SubMeta(name), name}, t.topicSubs - {i, p, s}, t.topicValues - {i}),
           Some((p, s)))
  }

  function RemoveTopic(st: State, i: TopicIdx): (r: Result<()>)
    ensures SubsUntouched(st, r.st) && SeatsUntouched(st, r.st) && r.st.log == st.log
  {
    var r := Removed(st.t, i);
    match r.1
    case None => Result(st.(t := r.0), Err(TopicDoesNotExist))
    case Some((p, s)) => Result(st.(t := r.0, p := st.p.(metaValues := st.p.metaValues - {p, s})), Ok(()))
  }

  // ---- publishing ----

  /** Merges into, or reduces, the publisher list that belongs to a client. */
  function UpdatePublishers(st: State, c: ClientIdx, entry: ClientPublisherMTE, merge: bool): (r: Result<()>)
    ensures SubsUntouched(st, r.st) && SeatsUntouched(st, r.st) && r.st.log == st.log
  {
    if c == SERVER_CLIENT_IDX then
      var current := GetOr(st.p.metaValues, SERVER_PUB_METATOPIC, ServerPublisher([]));
      var delta := ServerPublisher([entry]);
      var updated := if merge then current.Merge(delta) else current.Reduce(delta);
      Result(st.(p := st.p.(metaValues := st.p.metaValues[SERVER_PUB_METATOPIC := updated])), Ok(()))
    else if c in st.p.clientMetatopics then
      var i := st.p.clientMetatopics[c].0;
      var current := GetOr(st.p.metaValues, i, ClientPublisher([]));
      var delta := ClientPublisher([entry]);
      var updated := if merge then current.Merge(delta) else current.Reduce(delta);
      Result(st.(p := st.p.(metaValues := st.p.metaValues[i := updated])), Ok(()))
    else Result(st, Err(TopicDoesNotExist))
  }

  function BindPub(st: State, c: ClientIdx, pubuid: PubUID, i: TopicIdx, name: string): (r: State)
    requires c in st.c.clients
    ensures SubsUntouched(st, r) && SeatsUntouched(st, r) && r.log.lastPublished == st.log.lastPublished[(c, pubuid) := name]
  {
    st.(c := st.c.(clients := st.c.clients[c := st.c.clients[c].(pubs := st.c.clients[c].pubs.Insert(pubuid, i))]),
        log := st.log.(lastPublished := st.log.lastPublished[(c, pubuid) := name]))
  }

  function FromPublishTopic(p: PublishTopic): Topic {
    Topic(p.name, p.kind, p.properties)
  }

  function PublishStep(st: State, p: PublishTopic, c: ClientIdx): (r: Result<TopicIdx>)
    ensures SubsUntouched(st, r.st) && SeatsUntouched(st, r.st)
  {
    var a := AddTopic(st, FromPublishTopic(p));
    if a.out.Err? then a
    else
      var i := a.out.value;
      var b := AnnounceTopic(a.st, i, Some((p.pubuid, c)));
      if b.out.Err? then Result(b.st, Err(b.out.error))
      else if c !in b.st.c.clients then Result(b.st, Err(ClientDoesNotExist))
      else
        var u := UpdatePublishers(BindPub(b.st, c, p.pubuid, i, p.name), c, ClientPublisherMTE(p.name, p.pubuid), true);
        if u.out.Err? then Result(u.st, Err(u.out.error)) else Result(u.st, Ok(i))
  }

  function Bump(counts: seq<nat>, i: nat): seq<nat> {
    if i < |counts| then counts[i := counts[i] + 1] else counts
  }

  /** `*count -= 1` on a 16-bit count: at zero it panics or wraps around, depending on the build. */
  function Decrement(st: State, i: TopicIdx): (r: Result<()>)
    requires i in st.p.pubCount
    ensures SubsUntouched(st, r.st) && SeatsUntouched(st, r.st) && r.st.log == st.log
  {
    if st.p.pubCount[i] == 0 && st.overflowChecks then Result(st, Err(Overflow))
    else
      var count: u16 := if st.p.pubCount[i] == 0 then 0xFFFF else st.p.pubCount[i] - 1;
      Result(st.(p := st.p.(pubCount := st.p.pubCount[i := count]), tlog := st.tlog.(releases := Bump(st.tlog.releases, i))), Ok(()))
  }

  function UnbindPub(st: State, c: ClientIdx, pubuid: PubUID): (r: State)
    requires c in st.c.clients
    ensures SubsUntouched(st, r) && SeatsUntouched(st, r) && r.log == st.log
  {
    st.(c := st.c.(clients := st.c.clients[c := st.c.clients[c].(pubs := st.c.clients[c].pubs.RemoveByLeft(pubuid))]))
  }

  /** One publisher of topic `i` leaves; the last one takes the topic with it. */
  function Release(st: State, i: TopicIdx): (r: Result<()>)
    requires i in st.p.pubCount
    ensures SubsUntouched(st, r.st) && SeatsUntouched(st, r.st) && r.st.log == st.log
  {
    var d := Decrement(st, i);
    if d.out.Err? || d.st.p.pubCount[i] != 0 then d else RemoveTopic(d.st, i)
  }

  /** `pub_count.remove`, which unpublishing does for a count that reached zero. */
  function DropCount(st: State, i: TopicIdx): (r: State)
    ensures SubsUntouched(st, r) && SeatsUntouched(st, r) && r.log == st.log
  {
    if i in st.p.pubCount && st.p.pubCount[i] == 0 then st.(p := st.p.(pubCount := st.p.pubCount - {i})) else st
  }

  function UnpublishStep(st: State, pubuid: PubUID, c: ClientIdx): (r: Result<()>)
    ensures SubsUntouched(st, r.st) && SeatsUntouched(st, r.st) && r.st.log == st.log
  {
    if c !in st.c.clients then Result(st, Err(ClientDoesNotExist))
    else if pubuid !in st.c.clients[c].pubs.fwd then Result(st, Err(TopicDoesNotExist))
    else
      var i := st.c.clients[c].pubs.fwd[pubuid];
      var name := if i in st.t.topics then st.t.topics[i].name else "";
      var st1 := UnbindPub(st, c, pubuid);
      if i !in st1.p.pubCount then Result(st1, Err(TopicDoesNotExist))
      else
        var r := Release(st1, i);
        if r.out.Err? then r else UpdatePublishers(DropCount(r.st, i), c, ClientPublisherMTE(name, pubuid), false)
  }

  // ---- subscribing ----

  /** The topics a new subscription is interested in, in iteration order. */
  function Matches(topicMap: map<string, TopicIdx>, sub: Subscription, order: seq<string>): seq<(TopicIdx, string)>
    requires forall n | n in order :: n in topicMap
  {
    if order == [] then []
    else
      var front, n := order[..|order| - 1], order[|order| - 1];
      Matches(topicMap, sub, front) + if sub.CaresAbout(n) then [(topicMap[n], n)] else []
  }

  /** The locals of the loop over interested topics. `ok` is false once a topic without a
      subscriber list was met. */
  datatype Visit = Visit(lists: map<TopicIdx, seq<SubIdx>>, announces: seq<NTMessage>, values: seq<(TopicIdx, TimestampedValue)>, ok: bool)

  function KindOf(t: TopicTables, i: TopicIdx, name: string): Option<string> {
    if '$' in name then Some("raw")
    else if i in t.topicValues then Some(t.topicValues[i].value.kind)
    else if i in t.topics then Some(t.topics[i].kind)
    else None
  }

  function VisitTopic(t: TopicTables, s: SubIdx, v: Visit, i: TopicIdx, name: string): Visit {
    if !v.ok || i !in v.lists then v.(ok := false)
    else
      var lists := v.lists[i := v.lists[i] + [s]];
      var kind := KindOf(t, i, name);
      if kind.None? then v.(lists := lists)
      else
        var props := if i in t.topics then UnwrapOr(t.topics[i].properties, DEFAULT_PROPERTIES) else DEFAULT_PROPERTIES;
        Visit(lists,
              v.announces + [Announcement(Announce(name, i, kind.value, None, props))],
              v.values + if i in t.topicValues then [(i, t.topicValues[i])] else [],
              true)
  }

  function VisitAll(t: TopicTables, s: SubIdx, found: seq<(TopicIdx, string)>): Visit {
    if found == [] then Visit(t.topicSubs, [], [], true)
    else
      var last := found[|found| - 1];
      VisitTopic(t, s, VisitAll(t, s, found[..|found| - 1]), last.0, last.1)
  }

  function Ids(found: seq<(TopicIdx, string)>): set<TopicIdx> {
    set k | 0 <= k < |found| :: found[k].0
  }

  function NewStore(sub: Subscription): StoredSubValue {
    if sub.WantsAll() then All(map[]) else One(map[])
  }

  /** The history of a subscription made now. */
  function BirthOf(st: State, listed: set<TopicIdx>): Birth {
    Birth(st.tlog.accepted, listed, map i | i in listed && i in st.t.topicValues :: st.t.topicValues[i])
  }

  function BindSub(client: ConnectedClient, sub: Subscription, s: SubIdx): ConnectedClient {
    client.(subs := client.subs.Insert(AsU32(sub.subuid), s))
  }

  /** A subscription enters every table. */
  function Enrol(st: State, sub: Subscription, c: ClientIdx, s: SubIdx, listed: set<TopicIdx>, now: nat): State
    requires c in st.c.clients
  {
    st.(s := SubTables(st.s.subscriptions[s := (sub, c)], st.s.subValues[s := NewStore(sub)], st.s.sendTimes[s := now]),
        c := st.c.(clients := st.c.clients[c := BindSub(st.c.clients[c], sub, s)]),
        log := st.log.(births := st.log.births[s := BirthOf(st, listed)], drained := st.log.drained[s := map[]]))
  }

  function SubscribeStep(st: State, sub: Subscription, c: ClientIdx, order: seq<string>, now: nat): Result<()>
    requires forall n | n in order :: n in st.t.topicMap
  {
    if c !in st.c.clients then Result(st, Err(ClientDoesNotExist))
    else
      var found := Matches(st.t.topicMap, sub, order);
      var s := st.counters.subIdx;
      var v := VisitAll(st.t, s, found);
      var st1 := st.(t := st.t.(topicSubs := v.lists), counters := st.counters.NextSub());
      if !v.ok then Result(st1, Err(TopicDoesNotExist))
      else
        var st2 := Enrol(st1, sub, c, s, Ids(found), now);
        Result(st2.(c := Deliver(st2.c, c, [Text(v.announces), Binary(v.values)])), Ok(()))
  }

  /** Every subscriber list, with one subscription retained nowhere. */
  function WithoutSub(lists: map<TopicIdx, seq<SubIdx>>, s: SubIdx): map<TopicIdx, seq<SubIdx>> {
    map i | i in lists :: Without(lists[i], [s])
  }

  function UnsubscribeStep(st: State, subuid: i32, c: ClientIdx): Result<()> {
    if c !in st.c.clients then Result(st, Err(ClientDoesNotExist))
    else if AsU32(subuid) !in st.c.clients[c].subs.fwd then Result(st, Err(SubscriptionDoesNotExist))
    else
      var s := st.c.clients[c].subs.fwd[AsU32(subuid)];
      Result(st.(c := st.c.(clients := st.c.clients[c := st.c.clients[c].(subs := st.c.clients[c].subs.RemoveByLeft(AsU32(subuid)))]),
                 t := st.t.(topicSubs := WithoutSub(st.t.topicSubs, s)),
                 s := SubTables(st.s.subscriptions - {s}, st.s.subValues - {s}, st.s.sendTimes - {s})),
             Ok(()))
  }

  // ---- properties and values ----

  function Updated(current: Option<PublishProperties>, update: PublishProperties): PublishProperties {
    if current.None? then update
    else PublishProperties(if update.persistent.Some? then update.persistent else current.value.persistent,
                           if update.retained.Some? then update.retained else current.value.retained)
  }

  function SetPropertiesStep(st: State, name: string, update: PublishProperties): Result<()> {
    if name !in st.t.topicMap then Result(st, Err(TopicDoesNotExist))
    else
      var i := st.t.topicMap[name];
      if i !in st.t.topics then Result(st, Err(TopicDoesNotExist))
      else
        var topic := st.t.topics[i];
        Result(st.(t := st.t.(topics := st.t.topics[i := topic.(properties := Some(Updated(topic.properties, update)))])), Ok(()))
  }

  function Append(accepted: seq<seq<TimestampedValue>>, i: nat, v: TimestampedValue): seq<seq<TimestampedValue>> {
    if i < |accepted| then accepted[i := accepted[i] + [v]] else accepted
  }

  /** `sub_values` once a value was queued for every subscription in `subs`. */
  function Queued(stores: map<SubIdx, StoredSubValue>, subs: seq<SubIdx>, i: TopicIdx, v: TimestampedValue): map<SubIdx, StoredSubValue> {
    map s | s in stores :: if s in subs then stores[s].AddValue(i, v) else stores[s]
  }

  function SetValueStep(st: State, v: TimestampedValue, i: TopicIdx): Result<()> {
    if i !in st.t.topics then Result(st, Err(TopicDoesNotExist))
    else if '$' in st.t.topics[i].name then Result(st, Err(NotNormalTopic))
    else
      Result(st.(s := st.s.(subValues := Queued(st.s.subValues, GetOr(st.t.topicSubs, i, []), i, v)),
                 t := st.t.(topicValues := st.t.topicValues[i := Replace(Lookup(st.t.topicValues, i), v).value]),
                 tlog := st.tlog.(accepted := Append(st.tlog.accepted, i, v))),
             Ok(()))
  }

  /** src/server/runner.rs: a binary message of a client goes to the topic its pubuid stands for. */
  function ClientValueStep(st: State, c: ClientIdx, pubuid: PubUID, v: TimestampedValue): State {
    if c in st.c.clients && pubuid in st.c.clients[c].pubs.fwd then SetValueStep(st, v, st.c.clients[c].pubs.fwd[pubuid]).st
    else st
  }

  // ---- sending out ----

  /** One subscription visited by a pass of `send_out`, and the iteration order of its pending topics. */
  datatype Pick = Pick(s: SubIdx, order: seq<TopicIdx>)

  function WithId(i: TopicIdx, vs: seq<TimestampedValue>): seq<(TopicIdx, TimestampedValue)> {
    seq(|vs|, k requires 0 <= k < |vs| => (i, vs[k]))
  }

  /** One binary message per topic. */
  function Batches(taken: map<TopicIdx, seq<TimestampedValue>>, order: seq<TopicIdx>): seq<Message> {
    if order == [] then []
    else
      var i := order[|order| - 1];
      Batches(taken, order[..|order| - 1]) + [Binary(WithId(i, GetOr(taken, i, [])))]
  }

  function Joined(drained: map<TopicIdx, seq<TimestampedValue>>, taken: map<TopicIdx, seq<TimestampedValue>>): map<TopicIdx, seq<TimestampedValue>> {
    map i | i in drained.Keys + taken.Keys :: GetOr(drained, i, []) + GetOr(taken, i, [])
  }

  /** The subscription is one a pass does not skip; its pending values can be looked up. */
  predicate CanPick(s: SubTables, p: Pick) {
    p.s in s.subscriptions && p.s in s.subValues && !s.subscriptions[p.s].0.TopicsOnly()
  }

  function SendSub(st: State, p: Pick, now: nat): State
    requires CanPick(st.s, p)
  {
    var c := st.s.subscriptions[p.s].1;
    var times := st.s.sendTimes[p.s := now];
    if c !in st.c.clients then st.(s := st.s.(sendTimes := times))
    else
      var store := st.s.subValues[p.s];
      st.(s := st.s.(sendTimes := times, subValues := st.s.subValues[p.s := store.Emptied()]),
          log := st.log.(drained := st.log.drained[p.s := Joined(GetOr(st.log.drained, p.s, map[]), store.Taken())]),
          c := Deliver(st.c, c, Batches(store.Taken(), p.order)))
  }

  /** A pass over the subscriptions that are due, in iteration order. */
  function SendOutStep(st: State, picks: seq<Pick>, now: nat): (r: State)
    requires forall p | p in picks :: CanPick(st.s, p)
    ensures r.s.subscriptions == st.s.subscriptions && r.s.subValues.Keys == st.s.subValues.Keys
  {
    if picks == [] then st
    else
      var before := SendOutStep(st, picks[..|picks| - 1], now);
      var last := picks[|picks| - 1];
      assert CanPick(st.s, last);
      SendSub(before, last, now)
  }

  // ---- clients ----

  function RenamedIdentity(clients: map<ClientIdx, ConnectedClient>, identity: Identity): Identity {
    var instances := |set c | c in clients && Contains(clients[c].identity.name, identity.name)|;
    if instances > 0 then identity.(name := identity.name + "@" + Decimal(instances)) else identity
  }

  function NewClient(identity: Identity): ConnectedClient {
    ConnectedClient(identity, BiMap.Empty(), BiMap.Empty(), true, {})
  }

  /** `connect_client` up to the point where it adds the client's metatopics. */
  function Register(st: State, identity: Identity): (r: State)
    ensures SubsUntouched(st, r) && r.log == st.log
  {
    var idx := st.counters.clientIdx;
    var current := GetOr(st.p.metaValues, CLIENT_METATOPIC, Client([]));
    st.(counters := st.counters.NextClient(),
        c := ClientTables(st.c.clientMap[identity := idx], st.c.clients[idx := NewClient(identity)], st.c.outboxes[idx := []]),
        p := st.p.(metaValues := st.p.metaValues[CLIENT_METATOPIC := current.Merge(Client([ClientMTE(identity.name, identity.addr)]))]))
  }

  function ConnectStep(st: State, identity: Identity): (r: Result<(Identity, ClientIdx)>)
    ensures SubsUntouched(st, r.st) && r.st.log == st.log
  {
    if identity in st.c.clientMap then Result(st, Err(ClientAlreadyExists))
    else
      var renamed := RenamedIdentity(st.c.clients, identity);
      var idx := st.counters.clientIdx;
      var p := AddTopic(Register(st, renamed), NewMeta(ClientPub(renamed.name)));
      if p.out.Err? then Result(p.st, Err(p.out.error))
      else
        var s := AddTopic(p.st, NewMeta(ClientSub(renamed.name)));
        if s.out.Err? then Result(s.st, Err(s.out.error))
        else
          var metas := s.st.p.clientMetatopics[idx := (p.out.value, s.out.value)];
          Result(s.st.(p := s.st.p.(clientMetatopics := metas)), Ok((renamed, idx)))
  }

  /** The loop of `disconnect_client` over the client's publishers, in iteration order. */
  function ReleaseAll(st: State, pubs: map<PubUID, TopicIdx>, order: seq<PubUID>): (r: Result<()>)
    requires forall p | p in order :: p in pubs
    ensures SubsUntouched(st, r.st) && SeatsUntouched(st, r.st) && r.st.log == st.log
  {
    if order == [] then Result(st, Ok(()))
    else
      var before := ReleaseAll(st, pubs, order[..|order| - 1]);
      var i := pubs[order[|order| - 1]];
      if before.out.Err? || i !in before.st.p.pubCount then before else Release(before.st, i)
  }

  /** The tail of `disconnect_client`. */
  function DropMetatopics(st: State, idx: ClientIdx): (r: Result<()>)
    ensures SubsUntouched(st, r.st) && r.st.log == st.log && r.st.c.clients.Keys == st.c.clients.Keys
    ensures r.st.p.clientMetatopics == st.p.clientMetatopics - {idx}
  {
    if idx !in st.p.clientMetatopics then Result(st, Ok(()))
    else
      var metas := st.p.clientMetatopics[idx];
      var r := RemoveTopic(st.(p := st.p.(clientMetatopics := st.p.clientMetatopics - {idx})), metas.0);
      if r.out.Err? then r else RemoveTopic(r.st, metas.1)
  }

  function PubsOf(c: ClientTables, identity: Identity): map<PubUID, TopicIdx> {
    if identity in c.clientMap && c.clientMap[identity] in c.clients then c.clients[c.clientMap[identity]].pubs.fwd else map[]
  }

  function Unregister(st: State, identity: Identity): (r: State)
    requires identity in st.c.clientMap
    ensures SubsUntouched(st, r) && r.log == st.log
  {
    st.(c := st.c.(clientMap := st.c.clientMap - {identity}, clients := st.c.clients - {st.c.clientMap[identity]}))
  }

  function DisconnectStep(st: State, identity: Identity, order: seq<PubUID>): (r: Result<()>)
    requires forall p | p in order :: p in PubsOf(st.c, identity)
    ensures SubsUntouched(st, r.st) && r.st.log == st.log
  {
    if identity !in st.c.clientMap then Result(st, Err(ClientDoesNotExist))
    else
      var idx := st.c.clientMap[identity];
      var st1 := Unregister(st, identity);
      if idx !in st.c.clients then Result(st1, Err(ClientDoesNotExist))
      else
        var r := ReleaseAll(st1, PubsOf(st.c, identity), order);
        if r.out.Err? then r else DropMetatopics(r.st, idx)
  }

  // ---- runs ----

  /** `try_new`: the server pseudo-client, then three metatopics. */
  function Blank(overflowChecks: bool): State {
    var server := ConnectedClient(Identity("0.0.0.0:0", ""), BiMap.Empty(), BiMap.Empty(), false, {});
    State(overflowChecks, Counter(0, 0, 1),
          TopicTables(map[], map[], map[], map[]),
          PubTables(map[], map[], map[]),
          ClientTables(map[], map[SERVER_CLIENT_IDX := server], map[]),
          SubTables(map[], map[], map[]),
          TopicLog([], [], [], []), Log(map[], map[], map[]))
  }

  function Init(overflowChecks: bool): State {
    Alloc(Alloc(Alloc(Blank(overflowChecks), NewMeta("$clients")), NewMeta("$serversub")), NewMeta("$serverpub"))
  }

  /** A handler call together with the iteration orders and the clock reading it meets. */
  datatype Op =
    | OpConnect(identity: Identity)
    | OpDisconnect(identity: Identity, pubOrder: seq<PubUID>)
    | OpPublish(topic: PublishTopic, client: ClientIdx)
    | OpUnpublish(pubuid: PubUID, client: ClientIdx)
    | OpSubscribe(sub: Subscription, client: ClientIdx, nameOrder: seq<string>, now: nat)
    | OpUnsubscribe(subuid: i32, client: ClientIdx)
    | OpSetProperties(name: string, update: PublishProperties)
    | OpSetValue(value: TimestampedValue, target: TopicIdx)
    | OpClientValue(client: ClientIdx, pubuid: PubUID, value: TimestampedValue)
    | OpSendOut(picks: seq<Pick>, now: nat)

  /** The pick is one a pass can make: the order covers the pending topics exactly. */
  ghost predicate ValidPick(s: SubTables, p: Pick) {
    CanPick(s, p) && Enumerates(p.order, s.subValues[p.s].Topics())
  }

  ghost predicate Enabled(st: State, op: Op) {
    match op
    case OpDisconnect(identity, order) => Enumerates(order, PubsOf(st.c, identity).Keys)
    case OpSubscribe(_, _, order, _) => Enumerates(order, st.t.topicMap.Keys)
    case OpSendOut(picks, _) =>
      && (forall p | p in picks :: ValidPick(st.s, p))
      && (forall j, k :: 0 <= j < k < |picks| ==> picks[j].s != picks[k].s)
    case _ => true
  }

  ghost function Step(st: State, op: Op): State
    requires Enabled(st, op)
  {
    match op
    case OpConnect(identity) => ConnectStep(st, identity).st
    case OpDisconnect(identity, order) => DisconnectStep(st, identity, order).st
    case OpPublish(topic, c) => PublishStep(st, topic, c).st
    case OpUnpublish(pubuid, c) => UnpublishStep(st, pubuid, c).st
    case OpSubscribe(sub, c, order, now) => SubscribeStep(st, sub, c, order, now).st
    case OpUnsubscribe(subuid, c) => UnsubscribeStep(st, subuid, c).st
    case OpSetProperties(name, update) => SetPropertiesStep(st, name, update).st
    case OpSetValue(value, i) => SetValueStep(st, value, i).st
    case OpClientValue(c, pubuid, value) => ClientValueStep(st, c, pubuid, value)
    case OpSendOut(picks, now) => SendOutStep(st, picks, now)
  }

  /** A finite run of the server: every state it passes through. */
  ghost predicate IsRun(states: seq<State>, ops: seq<Op>) {
    && |states| == |ops| + 1
    && (exists checks :: states[0] == Init(checks))
    && (forall k | 0 <= k < |ops| :: Enabled(states[k], ops[k]) && states[k + 1] == Step(states[k], ops[k]))
  }
}
