/** src/server/inner.rs: the server object, handler by handler what the model says. */
module Server {
  import opened Basics
  import opened BiMap
  import opened Protocol
  import opened MetaTopic
  import opened SubValue
  import M = ServerModel
  import opened Mailbox
  import opened Invariants
  import opened TopicSteps
  import opened ClientSteps
  import opened Subscribing
  import opened ValueSteps
  import opened Handlers
  import Mailing
  import Stores
  import opened ServerLoops

  /** The mutex-guarded maps of the source, grouped by what they are about. Whatever a handler sends is appended to the
      outboxes in `seats`; the two logs are history that no handler reads. */
  class InnerServer {
    const overflowChecks: bool
    var counters: Counter
    var tables: M.TopicTables
    var pubs: M.PubTables
    var seats: M.ClientTables
    var subs: M.SubTables
    ghost var tlog: M.TopicLog
    ghost var log: M.Log

    ghost function Abs(): M.State
      reads this
    {
      M.State(overflowChecks, counters, tables, pubs, seats, subs, tlog, log)
    }

    ghost predicate Valid()
      reads this
    {
      Inv(Abs())
    }

    constructor TryNew(checks: bool)
      ensures Abs() == M.Init(checks) && Valid()
    {
      var server := M.ConnectedClient(Identity("0.0.0.0:0", ""), BiMap.Empty(), BiMap.Empty(), false, {});
      overflowChecks := checks;
      counters := Counter(0, 0, 0).NextClient();
      tables := M.TopicTables(map[], map[], map[], map[]);
      pubs := M.PubTables(map[], map[], map[]);
      seats := M.ClientTables(map[], map[0 := server], map[]);
      subs := M.SubTables(map[], map[], map[]);
      tlog := M.TopicLog([], [], [], []);
      log := M.Log(map[], map[], map[]);
      new;
      assert Abs() == M.Blank(checks);
      hide Inv, M.AddTopic, M.Init, M.Blank, M.SubsUntouched, M.SeatsUntouched;
      InitAdds(checks);
      BlankInv(checks);
      InitInv(checks);
      var a := AddTopic(NewMeta("$clients"));
      var b := AddTopic(NewMeta("$serversub"));
      var c := AddTopic(NewMeta("$serverpub"));
    }

    // ---- topics ----

    method Allocate(topic: Topic) returns (i: TopicIdx)
      modifies `counters, `tables, `pubs, `tlog
      ensures Abs() == M.Alloc(old(Abs()), topic) && i == old(counters).topicIdx
    {
      hide M.SubsUntouched, M.SeatsUntouched;
      i := counters.topicIdx;
      counters := counters.NextTopic();
      var count: u16 := if topic.HasImplicitPublisher() then 2 else 1;
      tables := tables.(topics := tables.topics[i := topic]);
      pubs := pubs.(pubCount := pubs.pubCount[i := count]);
      tables := tables.(topicMap := tables.topicMap[topic.name := i]);
      tables := tables.(topicSubs := tables.topicSubs[i := []]);
      tlog := M.TopicLog(tlog.names + [topic.name], tlog.initial + [count], tlog.releases + [0], tlog.accepted + [[]]);
    }

    method AddTopic(topic: Topic) returns (out: M.Outcome<TopicIdx>)
      requires Valid()
      modifies this
      decreases if '$' in topic.name then 0 else 1, 0
      ensures Valid()
      ensures var r := M.AddTopic(old(Abs()), topic); Abs() == r.st && out == r.out
    {
      hide Inv, M.Alloc, M.AddMeta, PubMeta, SubMeta, M.SubsUntouched, M.SeatsUntouched;
      AddTopicInv(Abs(), topic);
      if topic.name in tables.topicMap {
        return M.Ok(tables.topicMap[topic.name]);
      }
      AllocInv(Abs(), topic);
      MetaNames(topic.name);
      var i := Allocate(topic);
      if '$' in topic.name {
        return M.Ok(i);
      }
      var p := AddMetaTopic(PubMeta(topic.name));
      if p.Err? {
        return M.Err(p.error);
      }
      var s := AddMetaTopic(SubMeta(topic.name));
      if s.Err? {
        return M.Err(s.error);
      }
      return M.Ok(i);
    }

    method AddMetaTopic(name: string) returns (out: M.Outcome<()>)
      requires Valid() && '$' in name
      modifies this
      decreases 0, 1
      ensures Valid()
      ensures var r := M.AddMeta(old(Abs()), name); Abs() == r.st && out == r.out
    {
      hide Inv, M.AddTopic, M.AnnounceTopic, M.SubsUntouched, M.SeatsUntouched;
      var a := AddTopic(NewMeta(name));
      if a.Err? {
        return M.Err(a.error);
      }
      out := AnnounceTopic(a.value, None);
    }

    method RemoveTopic(i: TopicIdx) returns (out: M.Outcome<()>)
      requires Valid()
      modifies `tables, `pubs
      ensures Valid()
      ensures var r := M.RemoveTopic(old(Abs()), i); Abs() == r.st && out == r.out
    {
      hide Inv, M.SubsUntouched, M.SeatsUntouched, M.Removed;
      RemoveTopicInv(Abs(), i);
      var metas := Uproot(i);
      if metas.None? {
        return M.Err(M.TopicDoesNotExist);
      }
      WithoutTwo(pubs.metaValues, metas.value.0, metas.value.1);
      pubs := pubs.(metaValues := pubs.metaValues - {metas.value.0} - {metas.value.1});
      out := M.Ok(());
    }

    /** Takes a topic out of the topic tables; half of it, if one of its metatopics has no name in use. */
    method Uproot(i: TopicIdx) returns (metas: Option<(TopicIdx, TopicIdx)>)
      modifies `tables
      ensures (tables, metas) == M.Removed(old(tables), i)
    {
      ghost var t := tables;
      if i !in tables.topics {
        return None;
      }
      var name := tables.topics[i].name;
      tables := tables.(topics := tables.topics - {i});
      var metaPub, metaSub := PubMeta(name), SubMeta(name);
      if metaPub !in tables.topicMap {
        return None;
      }
      var p := tables.topicMap[metaPub];
      tables := tables.(topicMap := tables.topicMap - {metaPub});
      if metaSub !in tables.topicMap {
        return None;
      }
      var s := tables.topicMap[metaSub];
      tables := tables.(topicMap := tables.topicMap - {metaSub} - {name});
      tables := tables.(topics := tables.topics - {p} - {s});
      tables := tables.(topicSubs := tables.topicSubs - {i} - {p} - {s});
      tables := tables.(topicValues := tables.topicValues - {i});
      metas := Some((p, s));
      hide PubMeta, SubMeta;
      WithoutThree(t.topicMap, metaPub, metaSub, name);
      WithoutThree(t.topics, i, p, s);
      WithoutThree(t.topicSubs, i, p, s);
    }

    // ---- announcing ----

    /** Sends one message to a client, if it has an output channel. */
    method Send(c: ClientIdx, m: Message)
      requires c in seats.clients
      modifies `seats
      ensures seats == M.Deliver(old(seats), c, [m]) && seats.clients == old(seats).clients
    {
      if seats.clients[c].hasOutput {
        seats := seats.(outboxes := seats.outboxes[c := GetOr(seats.outboxes, c, []) + [m]]);
      }
    }

    method AnnounceTopic(i: TopicIdx, response: Option<(PubUID, ClientIdx)>) returns (out: M.Outcome<()>)
      requires Valid()
      modifies `seats
      ensures Valid()
      ensures var r := M.AnnounceTopic(old(Abs()), i, response); Abs() == r.st && out == r.out
    {
      ghost var st := Abs();
      hide Inv, Seated, M.SubsUntouched, M.SeatsUntouched, M.Told, M.Respond, M.AnnounceOf, M.Interested;
      AnnounceTopicInv(st, i, response);
      if i !in tables.topics {
        return M.Err(M.TopicDoesNotExist);
      }
      var topic := tables.topics[i];
      if response.Some? {
        if response.value.1 !in seats.clients {
          return M.Err(M.ClientDoesNotExist);
        }
        Answer(i, topic, response.value.0, response.value.1);
      }
      RespondSeated(st, i, response);
      var whom := ClientsToNotify(topic.name);
      var m := AnnouncementOf(topic, i, None);
      NotifyAll(whom, i, m);
      out := M.Ok(());
    }

    method AnnouncementOf(topic: Topic, i: TopicIdx, pubuid: Option<i32>) returns (m: Message)
      ensures m == M.AnnounceOf(topic, i, pubuid)
    {
      var properties := if topic.properties.Some? then topic.properties.value else PublishProperties(None, None);
      m := Text([Announcement(Announce(topic.name, i, topic.kind, pubuid, properties))]);
    }

    method Answer(i: TopicIdx, topic: Topic, pubuid: PubUID, c: ClientIdx)
      requires c in seats.clients
      modifies `seats
      ensures seats == M.Respond(old(seats), i, topic, pubuid, c)
    {
      hide M.AnnounceOf;
      if i !in seats.clients[c].announced {
        var m := AnnouncementOf(topic, i, Some(AsI32(pubuid)));
        Send(c, m);
        seats := seats.(clients := seats.clients[c := M.MarkAnnounced(seats.clients[c], i)]);
      }
    }

    method ClientsToNotify(name: string) returns (whom: set<ClientIdx>)
      ensures whom == M.Interested(subs, name)
    {
      whom := {};
      var rest := subs.subscriptions.Keys;
      while rest != {}
        invariant rest <= subs.subscriptions.Keys
        invariant whom == set k | k in subs.subscriptions && k !in rest && subs.subscriptions[k].0.CaresAbout(name) :: subs.subscriptions[k].1
        decreases rest
      {
        var k :| k in rest;
        if subs.subscriptions[k].0.CaresAbout(name) {
          whom := whom + {subs.subscriptions[k].1};
        }
        rest := rest - {k};
      }
    }

    method NotifyAll(whom: set<ClientIdx>, i: TopicIdx, m: Message)
      requires Seated(seats.clients, seats.outboxes, seats.clientMap, counters.clientIdx)
      modifies `seats
      ensures seats == M.Told(old(seats), whom, i, m)
    {
      ghost var before, n := seats, counters.clientIdx;
      ToldNobody(before, i, m);
      hide Seated, M.Told, M.Deliver;
      var rest := whom;
      assert whom - rest == {};
      while rest != {}
        invariant rest <= whom
        invariant seats == M.Told(before, whom - rest, i, m)
        decreases rest
      {
        var c :| c in rest;
        ToldOneMore(before, n, whom - rest, c, i, m);
        assert whom - (rest - {c}) == whom - rest + {c};
        if c in seats.clients {
          seats := seats.(clients := seats.clients[c := M.MarkAnnounced(seats.clients[c], i)]);
          Send(c, m);
        }
        rest := rest - {c};
      }
      assert whom - rest == whom;
    }

    // ---- publishing ----

    /** Merges an entry into, or takes it out of, the publisher list that belongs to a client. */
    method UpdatePublishers(c: ClientIdx, entry: ClientPublisherMTE, merge: bool) returns (out: M.Outcome<()>)
      modifies `pubs
      ensures var r := M.UpdatePublishers(old(Abs()), c, entry, merge); Abs() == r.st && out == r.out
    {
      hide M.SubsUntouched, M.SeatsUntouched, MetaTopicValue.Merge, MetaTopicValue.Reduce;
      if c == M.SERVER_CLIENT_IDX {
        var current := GetOr(pubs.metaValues, M.SERVER_PUB_METATOPIC, ServerPublisher([]));
        var delta := ServerPublisher([entry]);
        var updated;
        if merge {
          updated := current.Merge(delta);
        } else {
          updated := Stores.Reduce(current, delta);
        }
        pubs := pubs.(metaValues := pubs.metaValues[M.SERVER_PUB_METATOPIC := updated]);
      } else if c in pubs.clientMetatopics {
        var i := pubs.clientMetatopics[c].0;
        var current := GetOr(pubs.metaValues, i, ClientPublisher([]));
        var delta := ClientPublisher([entry]);
        var updated;
        if merge {
          updated := current.Merge(delta);
        } else {
          updated := Stores.Reduce(current, delta);
        }
        pubs := pubs.(metaValues := pubs.metaValues[i := updated]);
      } else {
        return M.Err(M.TopicDoesNotExist);
      }
      out := M.Ok(());
    }

    method Bind(c: ClientIdx, pubuid: PubUID, i: TopicIdx, name: string)
      requires c in seats.clients
      modifies `seats, `log
      ensures Abs() == M.BindPub(old(Abs()), c, pubuid, i, name)
    {
      hide M.SubsUntouched, M.SeatsUntouched;
      var client := seats.clients[c];
      seats := seats.(clients := seats.clients[c := client.(pubs := client.pubs.Insert(pubuid, i))]);
      log := log.(lastPublished := log.lastPublished[(c, pubuid) := name]);
    }

    method PublishTopic(topic: PublishTopic, c: ClientIdx) returns (out: M.Outcome<TopicIdx>)
      requires Valid()
      modifies this
      ensures Valid()
      ensures var r := M.PublishStep(old(Abs()), topic, c); Abs() == r.st && out == r.out
    {
      hide Inv, M.AddTopic, M.AnnounceTopic, M.BindPub, M.UpdatePublishers, M.SubsUntouched, M.SeatsUntouched;
      PublishInv(Abs(), topic, c);
      var entry := ClientPublisherMTE(topic.name, topic.pubuid);
      var a := AddTopic(M.FromPublishTopic(topic));
      if a.Err? {
        return a;
      }
      var b := AnnounceTopic(a.value, Some((topic.pubuid, c)));
      if b.Err? {
        return M.Err(b.error);
      }
      if c !in seats.clients {
        return M.Err(M.ClientDoesNotExist);
      }
      Bind(c, topic.pubuid, a.value, topic.name);
      var u := UpdatePublishers(c, entry, true);
      if u.Err? {
        return M.Err(u.error);
      }
      return a;
    }

    /** `*count -= 1`: at zero this panics where overflow checks are on, and wraps around where they are not. */
    method Decrement(i: TopicIdx) returns (out: M.Outcome<()>)
      requires i in pubs.pubCount
      modifies `pubs, `tlog
      ensures var r := M.Decrement(old(Abs()), i); Abs() == r.st && out == r.out
    {
      hide M.SubsUntouched, M.SeatsUntouched, M.Bump;
      if pubs.pubCount[i] == 0 && overflowChecks {
        return M.Err(M.Overflow);
      }
      var count: u16 := if pubs.pubCount[i] == 0 then 0xFFFF else pubs.pubCount[i] - 1;
      pubs := pubs.(pubCount := pubs.pubCount[i := count]);
      tlog := tlog.(releases := M.Bump(tlog.releases, i));
      out := M.Ok(());
    }

    method Release(i: TopicIdx) returns (out: M.Outcome<()>)
      requires Valid() && i in pubs.pubCount
      modifies `tables, `pubs, `tlog
      ensures Valid()
      ensures var r := M.Release(old(Abs()), i); Abs() == r.st && out == r.out
    {
      hide Inv, M.Decrement, M.RemoveTopic, M.SubsUntouched, M.SeatsUntouched;
      ReleaseInv(Abs(), i);
      DecrementInv(Abs(), i);
      DecrementKeeps(Abs(), i);
      out := Decrement(i);
      if out.Ok? && pubs.pubCount[i] == 0 {
        out := RemoveTopic(i);
      }
    }

    method UnpublishTopic(pubuid: PubUID, c: ClientIdx) returns (out: M.Outcome<()>)
      requires Valid()
      modifies this
      ensures Valid()
      ensures var r := M.UnpublishStep(old(Abs()), pubuid, c); Abs() == r.st && out == r.out
    {
      hide Inv, M.Release, M.UpdatePublishers, M.SubsUntouched, M.SeatsUntouched;
      UnpublishInv(Abs(), pubuid, c);
      if c !in seats.clients {
        return M.Err(M.ClientDoesNotExist);
      }
      if pubuid !in seats.clients[c].pubs.fwd {
        return M.Err(M.TopicDoesNotExist);
      }
      UnbindPubInv(Abs(), c, pubuid);
      var client := seats.clients[c];
      var i := client.pubs.fwd[pubuid];
      seats := seats.(clients := seats.clients[c := client.(pubs := client.pubs.RemoveByLeft(pubuid))]);
      assert Abs() == M.UnbindPub(old(Abs()), c, pubuid);
      hide M.UnbindPub;
      var entry := ClientPublisherMTE(if i in tables.topics then tables.topics[i].name else "", pubuid);
      if i !in pubs.pubCount {
        return M.Err(M.TopicDoesNotExist);
      }
      out := Release(i);
      if out.Ok? {
        if i in pubs.pubCount && pubs.pubCount[i] == 0 {
          pubs := pubs.(pubCount := pubs.pubCount - {i});
        }
        out := UpdatePublishers(c, entry, false);
      }
    }

    // ---- properties and values ----

    method SetProperties(name: string, update: PublishProperties) returns (out: M.Outcome<()>)
      requires Valid()
      modifies `tables
      ensures Valid()
      ensures var r := M.SetPropertiesStep(old(Abs()), name, update); Abs() == r.st && out == r.out
    {
      hide Inv;
      SetPropertiesInv(Abs(), name, update);
      if name !in tables.topicMap {
        return M.Err(M.TopicDoesNotExist);
      }
      var i := tables.topicMap[name];
      if i !in tables.topics {
        return M.Err(M.TopicDoesNotExist);
      }
      var topic := tables.topics[i];
      if topic.properties.None? {
        topic := topic.(properties := Some(update));
      } else {
        var properties := topic.properties.value;
        if update.retained.Some? {
          properties := properties.(retained := update.retained);
        }
        if update.persistent.Some? {
          properties := properties.(persistent := update.persistent);
        }
        topic := topic.(properties := Some(properties));
      }
      tables := tables.(topics := tables.topics[i := topic]);
      out := M.Ok(());
    }

    method SetValue(v: TimestampedValue, i: TopicIdx) returns (out: M.Outcome<()>)
      requires Valid()
      modifies `tables, `subs, `tlog
      ensures Valid()
      ensures var r := M.SetValueStep(old(Abs()), v, i); Abs() == r.st && out == r.out
    {
      hide Inv, M.Queued, M.Append;
      SetValueInv(Abs(), v, i);
      if i !in tables.topics {
        return M.Err(M.TopicDoesNotExist);
      }
      if '$' in tables.topics[i].name {
        return M.Err(M.NotNormalTopic);
      }
      ListDistinct(Abs(), i);
      QueueFor(tables.topicSubs[i], i, v);
      if i in tables.topicValues {
        if tables.topicValues[i].timestamp < v.timestamp {
          tables := tables.(topicValues := tables.topicValues[i := v]);
        }
      } else {
        tables := tables.(topicValues := tables.topicValues[i := v]);
      }
      assert tables.topicValues == old(tables.topicValues)[i := Replace(Lookup(old(tables.topicValues), i), v).value];
      tlog := tlog.(accepted := M.Append(tlog.accepted, i, v));
      out := M.Ok(());
    }

    /** The loop over the subscribers of a topic. */
    method QueueFor(list: seq<SubIdx>, i: TopicIdx, v: TimestampedValue)
      requires Distinct(list) && forall s | s in list :: s in subs.subValues
      modifies `subs
      ensures subs == old(subs).(subValues := M.Queued(old(subs.subValues), list, i, v))
    {
      ghost var before := subs;
      QueuedNone(before.subValues, i, v);
      for k := 0 to |list|
        invariant subs == before.(subValues := M.Queued(before.subValues, list[..k], i, v))
      {
        var s := list[k];
        QueuedOneMore(before.subValues, list, k, i, v);
        var store := Stores.AddValue(subs.subValues[s], i, v);
        subs := subs.(subValues := subs.subValues[s := store]);
      }
      assert list[..|list|] == list;
    }

    // ---- subscribing ----

    /** The topics a subscription is interested in, in the order in which the name table is iterated. */
    method InterestedTopics(sub: Subscription) returns (found: seq<(TopicIdx, string)>, ghost order: seq<string>)
      ensures Enumerates(order, tables.topicMap.Keys) && found == M.Matches(tables.topicMap, sub, order)
    {
      var names := IterationOrder(tables.topicMap.Keys);
      order := names;
      found := [];
      for k := 0 to |names|
        invariant found == M.Matches(tables.topicMap, sub, names[..k])
      {
        assert names[..k + 1][..k] == names[..k];
        assert names[k] in tables.topicMap;
        if sub.CaresAbout(names[k]) {
          found := found + [(tables.topicMap[names[k]], names[k])];
        } else {
          assert found + [] == found;
        }
      }
      assert names[..|names|] == names;
    }

    /** The loop over the interested topics: subscribes to each, and gathers announcements and cached values. */
    method VisitTopics(s: SubIdx, found: seq<(TopicIdx, string)>)
      returns (ok: bool, announces: seq<NTMessage>, values: seq<(TopicIdx, TimestampedValue)>)
      modifies `tables
      ensures var v := M.VisitAll(old(tables), s, found);
        ok == v.ok && tables == old(tables).(topicSubs := v.lists) && (ok ==> announces == v.announces && values == v.values)
    {
      ghost var t := tables;
      announces, values := [], [];
      for k := 0 to |found|
        invariant M.VisitAll(t, s, found[..k]) == M.Visit(tables.topicSubs, announces, values, true)
        invariant tables == t.(topicSubs := tables.topicSubs)
      {
        assert found[..k + 1][..k] == found[..k];
        var (i, name) := found[k];
        if i !in tables.topicSubs {
          VisitStuck(t, s, found, k + 1);
          return false, announces, values;
        }
        tables := tables.(topicSubs := tables.topicSubs[i := tables.topicSubs[i] + [s]]);
        var kind :=
          if '$' in name then Some("raw")
          else if i in tables.topicValues then Some(tables.topicValues[i].value.kind)
          else if i in tables.topics then Some(tables.topics[i].kind)
          else None;
        if kind.Some? {
          var props := if i in tables.topics then UnwrapOr(tables.topics[i].properties, DEFAULT_PROPERTIES) else DEFAULT_PROPERTIES;
          announces := announces + [Announcement(Announce(name, i, kind.value, None, props))];
          if i in tables.topicValues {
            values := values + [(i, tables.topicValues[i])];
          } else {
            assert values + [] == values;
          }
        }
      }
      assert found[..|found|] == found;
      ok := true;
    }

    method Subscribe(sub: Subscription, c: ClientIdx, now: nat) returns (out: M.Outcome<()>, ghost order: seq<string>)
      requires Valid()
      modifies this
      ensures Valid()
      ensures Enumerates(order, old(tables.topicMap).Keys)
      ensures var r := M.SubscribeStep(old(Abs()), sub, c, order, now); Abs() == r.st && out == r.out
    {
      hide Inv, M.Matches, M.VisitAll, M.Ids, M.BirthOf, M.Deliver, M.BindSub, M.NewStore;
      ghost var st := Abs();
      if c !in seats.clients {
        order := SomeOrder(tables.topicMap.Keys);
        SubscribeInv(st, sub, c, order, now);
        return M.Err(M.ClientDoesNotExist), order;
      }
      var found;
      found, order := InterestedTopics(sub);
      SubscribeInv(st, sub, c, order, now);
      var s := counters.subIdx;
      counters := counters.NextSub();
      var ok, announces, values := VisitTopics(s, found);
      if !ok {
        return M.Err(M.TopicDoesNotExist), order;
      }
      Record(s, sub, c, now);
      log := log.(births := log.births[s := M.BirthOf(st.(t := st.t.(topicSubs := tables.topicSubs), counters := counters), M.Ids(found))],
                  drained := log.drained[s := map[]]);
      DeliverTwice(seats, c, Text(announces), Binary(values));
      Send(c, Text(announces));
      Send(c, Binary(values));
      out := M.Ok(());
    }

    /** Enters a subscription into the tables, in the order the source does. */
    method Record(s: SubIdx, sub: Subscription, c: ClientIdx, now: nat)
      requires c in seats.clients
      modifies `subs, `seats
      ensures subs == M.SubTables(old(subs).subscriptions[s := (sub, c)], old(subs).subValues[s := M.NewStore(sub)], old(subs).sendTimes[s := now])
      ensures seats == old(seats).(clients := old(seats).clients[c := M.BindSub(old(seats).clients[c], sub, s)])
    {
      subs := subs.(sendTimes := subs.sendTimes[s := now]);
      if UnwrapOr(UnwrapOr(sub.options, DEFAULT_OPTIONS).all, false) {
        subs := subs.(subValues := subs.subValues[s := All(map[])]);
      } else {
        subs := subs.(subValues := subs.subValues[s := One(map[])]);
      }
      subs := subs.(subscriptions := subs.subscriptions[s := (sub, c)]);
      var client := seats.clients[c];
      seats := seats.(clients := seats.clients[c := client.(subs := client.subs.Insert(AsU32(sub.subuid), s))]);
    }

    method Unsubscribe(subuid: i32, c: ClientIdx) returns (out: M.Outcome<()>)
      requires Valid()
      modifies `tables, `seats, `subs
      ensures Valid()
      ensures var r := M.UnsubscribeStep(old(Abs()), subuid, c); Abs() == r.st && out == r.out
    {
      hide Inv, M.WithoutSub;
      UnsubscribeInv(Abs(), subuid, c);
      if c !in seats.clients {
        return M.Err(M.ClientDoesNotExist);
      }
      var client := seats.clients[c];
      if AsU32(subuid) !in client.subs.fwd {
        return M.Err(M.SubscriptionDoesNotExist);
      }
      var s := client.subs.fwd[AsU32(subuid)];
      seats := seats.(clients := seats.clients[c := client.(subs := client.subs.RemoveByLeft(AsU32(subuid)))]);
      RetainOthers(s);
      subs := subs.(subscriptions := subs.subscriptions - {s});
      subs := subs.(subValues := subs.subValues - {s});
      subs := subs.(sendTimes := subs.sendTimes - {s});
      out := M.Ok(());
    }

    /** Takes a subscription out of every subscriber list. */
    method RetainOthers(s: SubIdx)
      modifies `tables
      ensures tables == old(tables).(topicSubs := M.WithoutSub(old(tables).topicSubs, s))
    {
      ghost var before := tables;
      hide Without;
      var rest := tables.topicSubs.Keys;
      while rest != {}
        invariant rest <= before.topicSubs.Keys == tables.topicSubs.Keys
        invariant tables == before.(topicSubs := tables.topicSubs)
        invariant forall i | i in before.topicSubs :: tables.topicSubs[i] == if i in rest then before.topicSubs[i] else Without(before.topicSubs[i], [s])
        decreases rest
      {
        var i :| i in rest;
        var kept := Stores.Retain(tables.topicSubs[i], [s]);
        tables := tables.(topicSubs := tables.topicSubs[i := kept]);
        rest := rest - {i};
      }
      assert tables.topicSubs == M.WithoutSub(before.topicSubs, s);
    }

    // ---- arriving and leaving ----

    /** `connect_client`, up to the wiring of the new client's socket. */
    method ConnectClient(identity: Identity) returns (out: M.Outcome<(Identity, ClientIdx)>)
      requires Valid()
      modifies this
      ensures Valid()
      ensures var r := M.ConnectStep(old(Abs()), identity); Abs() == r.st && out == r.out
    {
      hide Inv, M.AddTopic, M.RenamedIdentity, M.Register, ClientPub, ClientSub, M.SubsUntouched, M.SeatsUntouched;
      ConnectInv(Abs(), identity);
      if identity in seats.clientMap {
        return M.Err(M.ClientAlreadyExists);
      }
      var renamed := Rename(identity);
      RegisterInv(Abs(), renamed);
      var idx := Admit(renamed);
      var p := AddTopic(NewMeta(ClientPub(renamed.name)));
      if p.Err? {
        return M.Err(p.error);
      }
      var s := AddTopic(NewMeta(ClientSub(renamed.name)));
      if s.Err? {
        return M.Err(s.error);
      }
      pubs := pubs.(clientMetatopics := pubs.clientMetatopics[idx := (p.value, s.value)]);
      return M.Ok((renamed, idx));
    }

    /** Appends the number of clients whose names contain the new one, if there are any. */
    method Rename(identity: Identity) returns (renamed: Identity)
      ensures renamed == M.RenamedIdentity(seats.clients, identity)
    {
      var instances := 0;
      ghost var seen: set<ClientIdx> := {};
      var rest := seats.clients.Keys;
      while rest != {}
        invariant rest <= seats.clients.Keys && rest !! seen
        invariant seen == set c | c in seats.clients && c !in rest && Contains(seats.clients[c].identity.name, identity.name)
        invariant instances == |seen|
        decreases rest
      {
        var c :| c in rest;
        if Contains(seats.clients[c].identity.name, identity.name) {
          instances := instances + 1;
          seen := seen + {c};
        }
        rest := rest - {c};
      }
      assert seen == set c | c in seats.clients && Contains(seats.clients[c].identity.name, identity.name);
      renamed := if instances > 0 then identity.(name := identity.name + "@" + Decimal(instances)) else identity;
    }

    method Admit(identity: Identity) returns (idx: ClientIdx)
      modifies `counters, `seats, `pubs
      ensures Abs() == M.Register(old(Abs()), identity) && idx == old(counters).clientIdx
    {
      hide M.SubsUntouched, MetaTopicValue.Merge;
      idx := counters.clientIdx;
      counters := counters.NextClient();
      seats := seats.(clients := seats.clients[idx := M.ConnectedClient(identity, BiMap.Empty(), BiMap.Empty(), true, {})], outboxes := seats.outboxes[idx := []]);
      seats := seats.(clientMap := seats.clientMap[identity := idx]);
      var current := GetOr(pubs.metaValues, M.CLIENT_METATOPIC, Client([]));
      pubs := pubs.(metaValues := pubs.metaValues[M.CLIENT_METATOPIC := current.Merge(Client([ClientMTE(identity.name, identity.addr)]))]);
    }

    method DisconnectClient(identity: Identity) returns (out: M.Outcome<()>, ghost order: seq<PubUID>)
      requires Valid()
      modifies this
      ensures Valid()
      ensures Enumerates(order, M.PubsOf(old(seats), identity).Keys)
      ensures var r := M.DisconnectStep(old(Abs()), identity, order); Abs() == r.st && out == r.out
    {
      hide Inv, M.ReleaseAll, M.RemoveTopic, M.SubsUntouched, M.SeatsUntouched;
      ghost var st := Abs();
      if identity !in seats.clientMap {
        order := SomeOrder(M.PubsOf(seats, identity).Keys);
        return M.Err(M.ClientDoesNotExist), order;
      }
      UnregisterInv(st, identity);
      var idx := seats.clientMap[identity];
      seats := seats.(clientMap := seats.clientMap - {identity});
      if idx !in seats.clients {
        order := SomeOrder(M.PubsOf(st.c, identity).Keys);
        DisconnectInv(st, identity, order);
        assert seats.clients - {idx} == seats.clients;
        return M.Err(M.ClientDoesNotExist), order;
      }
      var client := seats.clients[idx];
      seats := seats.(clients := seats.clients - {idx});
      assert Abs() == M.Unregister(st, identity);
      hide M.Unregister;
      out, order := ReleaseEach(client.pubs.fwd);
      DisconnectInv(st, identity, order);
      if out.Err? {
        return out, order;
      }
      out := M.Ok(());
      if idx in pubs.clientMetatopics {
        ReleaseAllInv(M.Unregister(st, identity), client.pubs.fwd, order);
        var metas := pubs.clientMetatopics[idx];
        pubs := pubs.(clientMetatopics := pubs.clientMetatopics - {idx});
        WithoutMetas(M.ReleaseAll(M.Unregister(st, identity), client.pubs.fwd, order).st, idx);
        out := RemoveTopic(metas.0);
        if out.Err? {
          return out, order;
        }
        out := RemoveTopic(metas.1);
      }
    }

    /** The loop over the publishers of a client that leaves. */
    method ReleaseEach(fwd: map<PubUID, TopicIdx>) returns (out: M.Outcome<()>, ghost order: seq<PubUID>)
      requires Valid()
      modifies `tables, `pubs, `tlog
      ensures Valid()
      ensures Enumerates(order, fwd.Keys)
      ensures var r := M.ReleaseAll(old(Abs()), fwd, order); Abs() == r.st && out == r.out
    {
      hide Inv, M.Release, M.SubsUntouched, M.SeatsUntouched;
      ghost var st := Abs();
      var uids := IterationOrder(fwd.Keys);
      order := uids;
      out := M.Ok(());
      for k := 0 to |uids|
        invariant Valid() && M.ReleaseAll(st, fwd, uids[..k]) == M.Result(Abs(), out) && out.Ok?
      {
        assert uids[..k + 1][..k] == uids[..k];
        assert uids[k] in fwd;
        var i := fwd[uids[k]];
        if i in pubs.pubCount {
          out := Release(i);
          if out.Err? {
            ReleaseStuck(st, fwd, uids, k + 1);
            return out, order;
          }
        }
      }
      assert uids[..|uids|] == uids;
    }
  }
}
