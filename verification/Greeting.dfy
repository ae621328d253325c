/** What a new subscriber is told about the topics that exist. */
module Greeting {
  import opened Basics
  import opened Protocol
  import opened SubValue
  import opened ServerModel
  import opened Mailbox
  import opened Invariants
  import opened Subscribing
  import opened Handlers
  import opened Delivery
  import opened Meanings
  import Mailing

  /** The announcement is one that a new subscription calls for: of a name in use that it asks for, under the name's id, as type "raw" for
      a reserved name, else the type of the cached value, or, without one, that of the topic, which must be live then; with the topic's
      properties, unset where it has none or is not live. */
  ghost predicate Due(t: TopicTables, sub: Subscription, a: Announce) {
    && a.name in t.topicMap && AsksFor(sub, a.name) && a.id == t.topicMap[a.name] && a.pubuid.None?
    && (if '$' in a.name then a.kind == "raw"
        else if a.id in t.topicValues then a.kind == t.topicValues[a.id].value.kind
        else a.id in t.topics && a.kind == t.topics[a.id].kind)
    && a.properties == if a.id in t.topics && t.topics[a.id].properties.Some? then t.topics[a.id].properties.value else PublishProperties(None, None)
  }

  /** The messages are just these announcements, one for each name. */
  ghost predicate TellsDue(msgs: seq<NTMessage>, t: TopicTables, sub: Subscription) {
    && (forall k | 0 <= k < |msgs| :: msgs[k].Announcement?)
    && (forall a: Announce :: Announcement(a) in msgs <==> Due(t, sub, a))
    && (forall j, k | 0 <= j < k < |msgs| :: msgs[j].announce.name != msgs[k].announce.name)
  }

  /** The same for the part of the names that a loop has come to. */
  ghost predicate TellsFound(msgs: seq<NTMessage>, t: TopicTables, sub: Subscription, found: seq<(TopicIdx, string)>) {
    && (forall k | 0 <= k < |msgs| :: msgs[k].Announcement?)
    && (forall a: Announce :: Announcement(a) in msgs <==> (a.id, a.name) in found && Due(t, sub, a))
    && (forall j, k | 0 <= j < k < |msgs| :: msgs[j].announce.name != msgs[k].announce.name)
  }

  /** What the loop says about one topic. */
  ghost function Said(t: TopicTables, i: TopicIdx, name: string): seq<NTMessage> {
    if '$' in name || i in t.topicValues || i in t.topics then
      [Announcement(Announce(name, i,
        if '$' in name then "raw" else if i in t.topicValues then t.topicValues[i].value.kind else t.topics[i].kind, None,
        if i in t.topics && t.topics[i].properties.Some? then t.topics[i].properties.value else PublishProperties(None, None)))]
    else []
  }

  lemma {:induction false} VisitSays(t: TopicTables, s: SubIdx, v: Visit, i: TopicIdx, name: string)
    requires VisitTopic(t, s, v, i, name).ok
    ensures v.ok && VisitTopic(t, s, v, i, name).announces == v.announces + Said(t, i, name)
  {}

  lemma {:induction false} SaidIsDue(t: TopicTables, sub: Subscription, i: TopicIdx, name: string, a: Announce)
    requires name in t.topicMap && t.topicMap[name] == i && AsksFor(sub, name)
    ensures Announcement(a) in Said(t, i, name) <==> a.name == name && a.id == i && Due(t, sub, a)
  {
    hide AsksFor;
  }

  lemma {:induction false} SaysMore(msgs: seq<NTMessage>, t: TopicTables, sub: Subscription, front: seq<(TopicIdx, string)>, last: (TopicIdx, string))
    requires TellsFound(msgs, t, sub, front) && last !in front && last.1 in t.topicMap && t.topicMap[last.1] == last.0 && AsksFor(sub, last.1)
    ensures TellsFound(msgs + Said(t, last.0, last.1), t, sub, front + [last])
  {
    var said := Said(t, last.0, last.1);
    var more := msgs + said;
    forall a: Announce ensures Announcement(a) in more <==> (a.id, a.name) in front + [last] && Due(t, sub, a) {
      SaidIsDue(t, sub, last.0, last.1, a);
    }
    forall j, k | 0 <= j < k < |more| ensures more[j].announce.name != more[k].announce.name {
      if k == |msgs| {
        assert Announcement(msgs[j].announce) in msgs && Due(t, sub, msgs[j].announce);
      }
    }
    hide Due, AsksFor;
  }

  lemma {:induction false} VisitAllSays(t: TopicTables, s: SubIdx, sub: Subscription, found: seq<(TopicIdx, string)>)
    requires VisitAll(t, s, found).ok && DistinctIds(found)
    requires forall k | 0 <= k < |found| :: found[k].1 in t.topicMap && t.topicMap[found[k].1] == found[k].0 && AsksFor(sub, found[k].1)
    ensures TellsFound(VisitAll(t, s, found).announces, t, sub, found)
  {
    hide Due, AsksFor, VisitTopic, DistinctIds, Said;
    if found != [] {
      var front, last := found[..|found| - 1], found[|found| - 1];
      assert found == front + [last];
      LastNew(front, last);
      NotInFront(front, last);
      var v := VisitAll(t, s, front);
      VisitSays(t, s, v, last.0, last.1);
      VisitAllSays(t, s, sub, front);
      hide TellsFound;
      SaysMore(v.announces, t, sub, front, last);
    }
  }

  lemma {:induction false} NotInFront(front: seq<(TopicIdx, string)>, last: (TopicIdx, string))
    requires last.0 !in Ids(front)
    ensures last !in front
  {
    forall k | 0 <= k < |front| ensures front[k].0 in Ids(front) {}
  }

  /** A loop over all names in use finds just those asked for. */
  lemma {:induction false} FoundIsAsked(t: TopicTables, sub: Subscription, found: seq<(TopicIdx, string)>)
    requires Finds(found, t.topicMap, sub, t.topicMap.Keys)
    ensures forall k | 0 <= k < |found| :: found[k].1 in t.topicMap && t.topicMap[found[k].1] == found[k].0 && AsksFor(sub, found[k].1)
  {
    forall k | 0 <= k < |found| { MatchingMeans(sub, found[k].1); }
    hide AsksFor, Subscription.CaresAbout, Ids;
  }

  lemma {:induction false} AskedIsFound(t: TopicTables, names: seq<string>, sub: Subscription, found: seq<(TopicIdx, string)>, a: Announce)
    requires Finds(found, t.topicMap, sub, t.topicMap.Keys) && MapNamed(t.topicMap, names)
    ensures Due(t, sub, a) ==> (a.id, a.name) in found
  {
    MatchingMeans(sub, a.name);
    hide AsksFor, Subscription.CaresAbout;
    if Due(t, sub, a) {
      assert t.topicMap[a.name] in Ids(found);
      var k :| 0 <= k < |found| && found[k].0 == a.id;
      assert found[k].1 == names[a.id] == a.name;
    }
  }

  lemma {:induction false} AllFound(msgs: seq<NTMessage>, t: TopicTables, names: seq<string>, sub: Subscription, found: seq<(TopicIdx, string)>)
    requires TellsFound(msgs, t, sub, found) && Finds(found, t.topicMap, sub, t.topicMap.Keys) && MapNamed(t.topicMap, names)
    ensures TellsDue(msgs, t, sub)
  {
    hide Due, Finds, MapNamed;
    forall a: Announce ensures Announcement(a) in msgs <==> Due(t, sub, a) {
      AskedIsFound(t, names, sub, found, a);
    }
  }

  lemma {:induction false} NamedMap(st: State)
    requires Inv(st)
    ensures MapNamed(st.t.topicMap, st.tlog.names)
  {
    hide ClientInv, IndexInv, SubInv, MailInv, OwnNames, HaveLists, Cached, TopicsNamed, MapNamed;
  }

  /** A successful subscribe sends its client two messages. The first is the announcements that are due, each once and nothing else; the
      second is the values `Mailing.SubscribeSends` speaks of. */
  lemma {:induction false} SubscribeTells(st: State, sub: Subscription, c: ClientIdx, order: seq<string>, now: nat)
    requires Inv(st) && Enumerates(order, st.t.topicMap.Keys) && c in st.c.clients && c in st.c.outboxes
    ensures var st' := SubscribeStep(st, sub, c, order, now).st;
      && c in st'.c.outboxes && |st'.c.outboxes[c]| == |st.c.outboxes[c]| + 2 && st.c.outboxes[c] <= st'.c.outboxes[c]
      && var text := st'.c.outboxes[c][|st.c.outboxes[c]|];
      && text.Text? && TellsDue(text.msgs, st.t, sub) && st'.c.outboxes[c][|st.c.outboxes[c]| + 1].Binary?
  {
    hide Inv, Seated, Finds, DistinctIds, VisitAll, Matches, Ids, Welcomed, NewStore, BirthOf, AnnouncesFound, SendsCached, Visited, TellsDue, TellsFound, MapNamed, AsksFor;
    var s := st.counters.subIdx;
    var found := Matches(st.t.topicMap, sub, order);
    var v := VisitAll(st.t, s, found);
    SubscribeShape(st, sub, c, order, now);
    SubscribeVisits(st, sub, order);
    hide SubscribeStep;
    VisitedOk(v, st.t, s, found);
    Mailing.SeatedPart(st);
    WelcomedParts(st.c, c, st.counters.clientIdx, sub, s, v);
    NamedMap(st);
    FoundIsAsked(st.t, sub, found);
    FoundDistinct(st.t, sub, found);
    VisitAllSays(st.t, s, sub, found);
    AllFound(v.announces, st.t, st.tlog.names, sub, found);
  }

  lemma {:induction false} FoundDistinct(t: TopicTables, sub: Subscription, found: seq<(TopicIdx, string)>)
    requires Finds(found, t.topicMap, sub, t.topicMap.Keys)
    ensures DistinctIds(found)
  {
    hide Ids, DistinctIds;
  }

  /** So it is for every subscribe of every run. */
  lemma {:induction false} RunTells(states: seq<State>, ops: seq<Op>, k: nat)
    requires IsRun(states, ops) && Subscribes(states, ops, k) && ops[k].client != SERVER_CLIENT_IDX
    ensures var c := ops[k].client;
      && c in states[k].c.outboxes && c in states[k + 1].c.outboxes
      && var before, after := states[k].c.outboxes[c], states[k + 1].c.outboxes[c];
      && |after| == |before| + 2 && before <= after
      && after[|before|].Text? && TellsDue(after[|before|].msgs, states[k].t, ops[k].sub)
  {
    hide Inv, Init, SubscribeStep, TellsDue;
    RunInv(states, ops, k);
    Mailing.SeatedPart(states[k]);
    SubscribeTells(states[k], ops[k].sub, ops[k].client, ops[k].nameOrder, ops[k].now);
  }
}
