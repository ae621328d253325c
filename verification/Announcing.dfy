/** Who is told what when a topic is announced. */
module Announcing {
  import opened Basics
  import opened BiMap
  import opened Protocol
  import opened MetaTopic
  import opened SubValue
  import opened ServerModel
  import opened Mailbox
  import opened Invariants
  import opened TopicSteps
  import opened Handlers
  import opened Growth
  import opened Lockstep
  import opened TopicLives
  import opened OrdinaryTopics
  import opened Meanings
  import Announcements
  import Mailing

  /** The client owns a subscription that asks for this name. */
  ghost predicate Wants(s: SubTables, c: ClientIdx, name: string) {
    exists k | k in s.subscriptions :: s.subscriptions[k].1 == c && AsksFor(s.subscriptions[k].0, name)
  }

  /** The announcement of a topic: its name, id, type and properties, which are unset if it has none; with the pubuid as a signed
      number, if it answers a publish. */
  function Tells(topic: Topic, i: TopicIdx, pubuid: Option<PubUID>): Message {
    Text([Announcement(Announce(
      topic.name, i, topic.kind,
      if pubuid.None? then None else Some(if pubuid.value < 0x8000_0000 then pubuid.value else pubuid.value - 0x1_0000_0000),
      if topic.properties.Some? then topic.properties.value else PublishProperties(None, None)))])
  }

  lemma {:induction false} TellsIs(topic: Topic, i: TopicIdx, pubuid: PubUID)
    ensures AnnounceOf(topic, i, None) == Tells(topic, i, None)
    ensures AnnounceOf(topic, i, Some(AsI32(pubuid))) == Tells(topic, i, Some(pubuid))
  {}

  lemma {:induction false} InterestedWants(s: SubTables, name: string, c: ClientIdx)
    ensures c in Interested(s, name) <==> Wants(s, c, name)
  {
    forall k | k in s.subscriptions { MatchingMeans(s.subscriptions[k].0, name); }
    hide AsksFor, Subscription.CaresAbout;
    if c in Interested(s, name) {
      var k :| k in s.subscriptions && s.subscriptions[k].0.CaresAbout(name) && s.subscriptions[k].1 == c;
      assert AsksFor(s.subscriptions[k].0, name);
    }
  }

  /** The client publishes, and is answered. */
  predicate Answered(c: ClientTables, k: ClientIdx, i: TopicIdx, response: Option<(PubUID, ClientIdx)>) {
    response.Some? && response.value.1 == k && k in c.clients && i !in c.clients[k].announced
  }

  /** What client `k` is sent: the answer, if it publishes and was not told before, and the announcement, if it asked for the name. */
  ghost function Post(st: State, k: ClientIdx, i: TopicIdx, response: Option<(PubUID, ClientIdx)>): seq<Message>
    requires i in st.t.topics
  {
    (if Answered(st.c, k, i, response) then [Tells(st.t.topics[i], i, Some(response.value.0))] else [])
    + (if k in st.c.clients && Wants(st.s, k, st.t.topics[i].name) then [Tells(st.t.topics[i], i, None)] else [])
  }

  /** The client is now recorded as told. */
  ghost predicate IsTold(st: State, k: ClientIdx, i: TopicIdx, response: Option<(PubUID, ClientIdx)>)
    requires i in st.t.topics && k in st.c.clients
  {
    i in st.c.clients[k].announced || Wants(st.s, k, st.t.topics[i].name) || (response.Some? && response.value.1 == k)
  }

  lemma {:induction false} RespondExact(c: ClientTables, n: nat, i: TopicIdx, topic: Topic, pubuid: PubUID, idx: ClientIdx, k: ClientIdx)
    requires Seated(c.clients, c.outboxes, c.clientMap, n) && idx in c.clients
    ensures var r := Respond(c, i, topic, pubuid, idx);
      && r.clientMap == c.clientMap && r.clients.Keys == c.clients.Keys && r.outboxes.Keys == c.outboxes.Keys
      && (k in c.clients ==> r.clients[k] == if k == idx then c.clients[k].(announced := c.clients[k].announced + {i}) else c.clients[k])
      && (k in c.outboxes ==> r.outboxes[k] == c.outboxes[k] + if Answered(c, k, i, Some((pubuid, idx))) then [AnnounceOf(topic, i, Some(AsI32(pubuid)))] else [])
  {
    hide AnnounceOf;
    if k in c.outboxes {
      assert c.outboxes[k] + [] == c.outboxes[k];
    }
    if i in c.clients[idx].announced {
      assert c.clients[idx].announced + {i} == c.clients[idx].announced;
    }
  }

  lemma {:induction false} ToldExact(c: ClientTables, whom: set<ClientIdx>, i: TopicIdx, m: Message, k: ClientIdx)
    ensures var r := Told(c, whom, i, m);
      && r.clientMap == c.clientMap && r.clients.Keys == c.clients.Keys && r.outboxes.Keys == c.outboxes.Keys
      && (k in c.clients ==> r.clients[k] == if k in whom then c.clients[k].(announced := c.clients[k].announced + {i}) else c.clients[k])
      && (k in c.outboxes ==> r.outboxes[k] == c.outboxes[k] + if k in whom && k in c.clients then [m] else [])
  {
    if k in c.outboxes {
      assert c.outboxes[k] + [] == c.outboxes[k];
    }
  }

  /** Announcing a live topic changes the clients' records and channels only: each channel gets exactly the client's post, and exactly
      those who were told before, who publish, or who asked for the name are recorded as told. */
  lemma {:induction false} AnnounceExact(st: State, i: TopicIdx, response: Option<(PubUID, ClientIdx)>)
    requires Inv(st) && i in st.t.topics && (response.Some? ==> response.value.1 in st.c.clients)
    ensures var r := AnnounceTopic(st, i, response);
      && r.out.Ok? && r.st == st.(c := r.st.c)
      && r.st.c.clientMap == st.c.clientMap && r.st.c.clients.Keys == st.c.clients.Keys && r.st.c.outboxes.Keys == st.c.outboxes.Keys
      && (forall k | k in st.c.outboxes :: r.st.c.outboxes[k] == st.c.outboxes[k] + Post(st, k, i, response))
      && (forall k | k in st.c.clients ::
            r.st.c.clients[k] == st.c.clients[k].(announced := st.c.clients[k].announced + if IsTold(st, k, i, response) then {i} else {}))
  {
    hide Inv, Seated, AnnounceOf, Interested, Respond, Told, Tells, Wants, SubsUntouched, SeatsUntouched;
    Mailing.SeatedPart(st);
    var topic := st.t.topics[i];
    var whom, m := Interested(st.s, topic.name), AnnounceOf(topic, i, None);
    var r := AnnounceTopic(st, i, response).st.c;
    var c1 := if response.Some? then Respond(st.c, i, topic, response.value.0, response.value.1) else st.c;
    assert r == Told(c1, whom, i, m);
    hide AnnounceTopic;
    TellsIs(topic, i, 0);
    ToldExact(c1, whom, i, m, 0);
    if response.Some? {
      RespondExact(st.c, st.counters.clientIdx, i, topic, response.value.0, response.value.1, 0);
    }
    forall k | k in st.c.outboxes ensures r.outboxes[k] == st.c.outboxes[k] + Post(st, k, i, response) {
      OneTold(st, i, response, k);
    }
    forall k | k in st.c.clients
      ensures r.clients[k] == st.c.clients[k].(announced := st.c.clients[k].announced + if IsTold(st, k, i, response) then {i} else {})
    {
      OneTold(st, i, response, k);
    }
  }

  lemma {:induction false} OneTold(st: State, i: TopicIdx, response: Option<(PubUID, ClientIdx)>, k: ClientIdx)
    requires i in st.t.topics && (response.Some? ==> response.value.1 in st.c.clients)
    requires Seated(st.c.clients, st.c.outboxes, st.c.clientMap, st.counters.clientIdx)
    ensures var topic := st.t.topics[i];
      var c1 := if response.Some? then Respond(st.c, i, topic, response.value.0, response.value.1) else st.c;
      var r := Told(c1, Interested(st.s, topic.name), i, AnnounceOf(topic, i, None));
      && r.clients.Keys == st.c.clients.Keys && r.outboxes.Keys == st.c.outboxes.Keys
      && (k in st.c.outboxes ==> r.outboxes[k] == st.c.outboxes[k] + Post(st, k, i, response))
      && (k in st.c.clients ==>
            r.clients[k] == st.c.clients[k].(announced := st.c.clients[k].announced + if IsTold(st, k, i, response) then {i} else {}))
  {
    hide Seated, AnnounceOf, Interested, Respond, Told, Tells, Wants;
    var topic := st.t.topics[i];
    var whom, m := Interested(st.s, topic.name), AnnounceOf(topic, i, None);
    InterestedWants(st.s, topic.name, k);
    TellsIs(topic, i, if response.Some? then response.value.0 else 0);
    var c1 := st.c;
    if response.Some? {
      RespondExact(st.c, st.counters.clientIdx, i, topic, response.value.0, response.value.1, k);
      c1 := Respond(st.c, i, topic, response.value.0, response.value.1);
    }
    ToldExact(c1, whom, i, m, k);
    if k in st.c.outboxes {
      var b := st.c.outboxes[k];
      assert forall x: seq<Message>, y: seq<Message> :: b + x + y == b + (x + y);
      assert forall x: seq<Message> :: [] + x == x && x + [] == x;
    }
    if k in st.c.clients {
      var a := st.c.clients[k].announced;
      assert a + {i} + {i} == a + {i} && a + {} == a;
      if i in a {
        assert a + {i} == a;
      }
    }
  }

  // ---- publishing a new name ----

  /** The announcement of the topic that a name stands for, for a client that asked for the name. */
  ghost function NamePost(t: TopicTables, s: SubTables, clients: set<ClientIdx>, k: ClientIdx, name: string): seq<Message> {
    if k in clients && Wants(s, k, name) && name in t.topicMap && t.topicMap[name] in t.topics
    then [Tells(t.topics[t.topicMap[name]], t.topicMap[name], None)] else []
  }

  /** The name stands for a live topic, and so did and do all others. */
  ghost predicate AddsName(t: TopicTables, t': TopicTables, name: string) {
    && Submap(t.topics, t'.topics) && Submap(t.topicMap, t'.topicMap)
    && name in t'.topicMap && t'.topicMap[name] in t'.topics
  }

  /** Subscriptions, connected clients and channels are the same, but for this post. */
  ghost predicate Posted(st: State, st': State, name: string) {
    && st'.s == st.s && st'.c.clients.Keys == st.c.clients.Keys && st'.c.outboxes.Keys == st.c.outboxes.Keys
    && (forall k | k in st.c.outboxes :: st'.c.outboxes[k] == st.c.outboxes[k] + NamePost(st'.t, st.s, st.c.clients.Keys, k, name))
  }

  lemma {:induction false} LeafTables(st: State, topic: Topic)
    requires Inv(st) && '$' in topic.name
    ensures var r := AddTopic(st, topic);
      && r.out.Ok? && r.st.c == st.c && r.st.s == st.s && Lookup(r.st.t.topicMap, topic.name) == Some(r.out.value)
      && Submap(st.t.topics, r.st.t.topics) && Submap(st.t.topicMap, r.st.t.topicMap)
  {
    IdsBelow(st);
    hide Inv, SeatsUntouched;
  }

  lemma {:induction false} IdsBelow(st: State)
    requires Inv(st)
    ensures forall i | i in st.t.topics :: i < st.counters.topicIdx
  {
    hide Cached, ClientInv, IndexInv, SubInv, MailInv, MapNamed, OwnNames;
  }

  lemma {:induction false} LiveNames(st: State, name: string)
    requires Inv(st) && name in st.t.topicMap && st.t.topicMap[name] in st.t.topics
    ensures st.t.topics[st.t.topicMap[name]].name == name
  {
    hide Cached, ClientInv, IndexInv, SubInv, MailInv, HaveLists, OwnNames;
  }

  lemma {:induction false} AddMetaPosts(st: State, name: string)
    requires Inv(st) && '$' in name && AddMeta(st, name).out.Ok?
    ensures var r := AddMeta(st, name).st; Inv(r) && AddsName(st.t, r.t, name) && Posted(st, r, name)
  {
    hide Inv, AddTopic, AnnounceTopic, Tells, Wants, SubsUntouched, SeatsUntouched;
    AddMetaInv(st, name);
    LeafTables(st, NewMeta(name));
    AddTopicLeaf(st, NewMeta(name));
    var a := AddTopic(st, NewMeta(name));
    assert AddMeta(st, name) == AnnounceTopic(a.st, a.out.value, None);
    hide AddMeta;
    AnnounceLive(a.st, a.out.value, None);
    AnnounceExact(a.st, a.out.value, None);
    LiveNames(a.st, name);
  }

  lemma {:induction false} AnnounceLive(st: State, i: TopicIdx, response: Option<(PubUID, ClientIdx)>)
    requires AnnounceTopic(st, i, response).out.Ok?
    ensures i in st.t.topics && (response.Some? ==> response.value.1 in st.c.clients)
  {}

  lemma {:induction false} PostedAppend(a: State, b: State, c: State, m: string, n: string)
    requires Posted(a, b, m) && Posted(b, c, n) && AddsName(a.t, b.t, m) && AddsName(b.t, c.t, n)
    ensures c.s == a.s && c.c.clients.Keys == a.c.clients.Keys && c.c.outboxes.Keys == a.c.outboxes.Keys
    ensures forall k | k in a.c.outboxes ::
      c.c.outboxes[k] == a.c.outboxes[k] + NamePost(c.t, a.s, a.c.clients.Keys, k, m) + NamePost(c.t, a.s, a.c.clients.Keys, k, n)
    ensures AddsName(a.t, c.t, m) && AddsName(a.t, c.t, n)
  {
    hide Wants, Tells;
  }

  /** The posts for the two metatopics of a new ordinary name. */
  ghost function MetaPosts(t: TopicTables, s: SubTables, clients: set<ClientIdx>, k: ClientIdx, name: string): seq<Message> {
    if '$' in name then [] else NamePost(t, s, clients, k, "$pub$" + name) + NamePost(t, s, clients, k, "$sub$" + name)
  }

  lemma {:induction false} AllocTables(st: State, topic: Topic)
    requires Inv(st) && topic.name !in st.t.topicMap
    ensures var r := Alloc(st, topic);
      && r.c == st.c && r.s == st.s && Submap(st.t.topics, r.t.topics) && Submap(st.t.topicMap, r.t.topicMap)
      && Lookup(r.t.topicMap, topic.name) == Some(st.counters.topicIdx) && Lookup(r.t.topics, st.counters.topicIdx) == Some(topic)
  {
    hide Inv, SubsUntouched, SeatsUntouched, HaveLists;
    IdsBelow(st);
    AllocShape(st, topic);
    hide Alloc;
  }

  lemma {:induction false} AllocShape(st: State, topic: Topic)
    ensures var r, i := Alloc(st, topic), st.counters.topicIdx;
      r.c == st.c && r.s == st.s && r.t.topics == st.t.topics[i := topic] && r.t.topicMap == st.t.topicMap[topic.name := i]
  {
    hide SubsUntouched, SeatsUntouched;
  }

  /** Adding a new name: its topic, and what is sent about its metatopics. */
  lemma {:induction false} AddNewPosts(st: State, topic: Topic)
    requires Inv(st) && topic.name !in st.t.topicMap && AddTopic(st, topic).out.Ok?
    ensures var r, i := AddTopic(st, topic), st.counters.topicIdx;
      && r.out == Ok(i) && Inv(r.st) && r.st.s == st.s && Lookup(r.st.t.topics, i) == Some(topic) && Lookup(r.st.t.topicMap, topic.name) == Some(i)
      && r.st.c.clients.Keys == st.c.clients.Keys && r.st.c.outboxes.Keys == st.c.outboxes.Keys
      && (forall k | k in st.c.outboxes ::
            r.st.c.outboxes[k] == st.c.outboxes[k] + MetaPosts(r.st.t, st.s, st.c.clients.Keys, k, topic.name))
  {
    hide Inv, Alloc, AddMeta, PubMeta, SubMeta, NamePost, SubsUntouched, SeatsUntouched;
    AddTopicInv(st, topic);
    AllocTables(st, topic);
    AllocInv(st, topic);
    if '$' !in topic.name {
      MetaNames(topic.name);
      ReservedNamesMean(topic.name);
      var st1 := Alloc(st, topic);
      AddMetaPosts(st1, PubMeta(topic.name));
      var p := AddMeta(st1, PubMeta(topic.name)).st;
      AddMetaPosts(p, SubMeta(topic.name));
      var s := AddMeta(p, SubMeta(topic.name)).st;
      PostedAppend(st1, p, s, PubMeta(topic.name), SubMeta(topic.name));
      hide Posted, AddTopic;
      forall k | k in st.c.outboxes ensures s.c.outboxes[k] == st.c.outboxes[k] + MetaPosts(s.t, st.s, st.c.clients.Keys, k, topic.name) {
        assert forall x: seq<Message>, y: seq<Message> :: st.c.outboxes[k] + x + y == st.c.outboxes[k] + (x + y);
      }
    } else {
      forall k | k in st.c.outboxes ensures st.c.outboxes[k] + [] == st.c.outboxes[k] {}
    }
  }

  lemma {:induction false} NotMarked(st: State, topic: Topic, c: ClientIdx)
    requires Inv(st) && c in st.c.clients && c in st.c.outboxes && AddTopic(st, topic).out.Ok? && topic.name !in st.t.topicMap
    ensures var a := AddTopic(st, topic); c in a.st.c.clients ==> a.out.value !in a.st.c.clients[c].announced
  {
    hide Inv, AddTopic;
    Announcements.AddTopicMarks(st, topic, c);
    AddsSomething(st, topic);
  }

  lemma {:induction false} AddsSomething(st: State, topic: Topic)
    requires Inv(st) && topic.name !in st.t.topicMap && AddTopic(st, topic).out.Ok?
    ensures AddTopic(st, topic).st != st
  {
    hide Inv, AddTopic;
    AddNewPosts(st, topic);
  }

  /** At any point of any run: publishing a new name appends to the channel of every client exactly the announcements of the two
      metatopics as far as it asked for their names, the answer if it publishes, and the announcement of the topic if it asked for its name. */
  lemma {:induction false} PublishTells(states: seq<State>, ops: seq<Op>, j: nat, p: PublishTopic, c: ClientIdx)
    requires IsRun(states, ops) && j <= |ops| && p.name !in states[j].t.topicMap && PublishStep(states[j], p, c).out.Ok?
    ensures var st, r, topic := states[j], PublishStep(states[j], p, c), Topic(p.name, p.kind, p.properties);
      var i := r.out.value;
      && i == st.counters.topicIdx && Lookup(r.st.t.topicMap, p.name) == Some(i) && Lookup(r.st.t.topics, i) == Some(topic)
      && r.st.c.outboxes.Keys == st.c.outboxes.Keys && r.st.c.clients.Keys == st.c.clients.Keys
      && (forall k | k in st.c.outboxes ::
            r.st.c.outboxes[k] == st.c.outboxes[k]
              + MetaPosts(r.st.t, st.s, st.c.clients.Keys, k, p.name)
              + (if k == c then [Tells(topic, i, Some(p.pubuid))] else [])
              + (if k in st.c.clients && Wants(st.s, k, p.name) then [Tells(topic, i, None)] else []))
  {
    hide Inv, Init, Step, Enabled, PublishStep, AddTopic, AnnounceTopic, MetaPosts, Tells, Wants, BindPub, UpdatePublishers, SubsUntouched, SeatsUntouched;
    RunInv(states, ops, j);
    PublishTellsIn(states[j], p, c);
  }

  lemma {:induction false} PublishTellsIn(st: State, p: PublishTopic, c: ClientIdx)
    requires Inv(st) && p.name !in st.t.topicMap && PublishStep(st, p, c).out.Ok?
    ensures var r, topic := PublishStep(st, p, c), Topic(p.name, p.kind, p.properties);
      var i := r.out.value;
      && i == st.counters.topicIdx && Lookup(r.st.t.topicMap, p.name) == Some(i) && Lookup(r.st.t.topics, i) == Some(topic)
      && r.st.c.outboxes.Keys == st.c.outboxes.Keys && r.st.c.clients.Keys == st.c.clients.Keys
      && (forall k | k in st.c.outboxes ::
            r.st.c.outboxes[k] == st.c.outboxes[k]
              + MetaPosts(r.st.t, st.s, st.c.clients.Keys, k, p.name)
              + (if k == c then [Tells(topic, i, Some(p.pubuid))] else [])
              + (if k in st.c.clients && Wants(st.s, k, p.name) then [Tells(topic, i, None)] else []))
  {
    var topic := FromPublishTopic(p);
    assert topic == Topic(p.name, p.kind, p.properties);
    hide Inv, PublishStep, AddTopic, AnnounceTopic, MetaPosts, Tells, Wants, Post, IsTold, BindPub, UpdatePublishers, FromPublishTopic, SubsUntouched, SeatsUntouched;
    Announcements.PublishShape(st, p, c);
    AddNewPosts(st, topic);
    var a := AddTopic(st, topic);
    var i := a.out.value;
    AnnounceExact(a.st, i, Some((p.pubuid, c)));
    var b := AnnounceTopic(a.st, i, Some((p.pubuid, c)));
    TailQuiet(b.st, c, p, i);
    var r := PublishStep(st, p, c).st;
    forall k | k in st.c.outboxes
      ensures r.c.outboxes[k] == st.c.outboxes[k]
        + MetaPosts(r.t, st.s, st.c.clients.Keys, k, p.name)
        + (if k == c then [Tells(topic, i, Some(p.pubuid))] else [])
        + (if k in st.c.clients && Wants(st.s, k, p.name) then [Tells(topic, i, None)] else [])
    {
      if k == c {
        NotMarked(st, topic, c);
      }
      PostOf(a.st, k, i, p.pubuid, c, topic);
      Append3(st.c.outboxes[k] + MetaPosts(r.t, st.s, st.c.clients.Keys, k, p.name), if k == c then [Tells(topic, i, Some(p.pubuid))] else [],
              if k in st.c.clients && Wants(st.s, k, p.name) then [Tells(topic, i, None)] else []);
    }
  }

  lemma {:induction false} Append3(x: seq<Message>, y: seq<Message>, z: seq<Message>)
    ensures x + (y + z) == x + y + z
  {}

  lemma {:induction false} PostOf(st: State, k: ClientIdx, i: TopicIdx, pubuid: PubUID, c: ClientIdx, topic: Topic)
    requires Lookup(st.t.topics, i) == Some(topic) && c in st.c.clients && (k == c ==> i !in st.c.clients[c].announced)
    ensures i in st.t.topics
    ensures Post(st, k, i, Some((pubuid, c))) ==
      (if k == c then [Tells(topic, i, Some(pubuid))] else []) + (if k in st.c.clients && Wants(st.s, k, topic.name) then [Tells(topic, i, None)] else [])
  {
    hide Wants, Tells;
  }

  /** The rest of a publish sends nothing and leaves topics alone. */
  lemma {:induction false} TailQuiet(st: State, c: ClientIdx, p: PublishTopic, i: TopicIdx)
    requires c in st.c.clients
    ensures var r := UpdatePublishers(BindPub(st, c, p.pubuid, i, p.name), c, ClientPublisherMTE(p.name, p.pubuid), true).st;
      r.c.outboxes == st.c.outboxes && r.c.clients.Keys == st.c.clients.Keys && r.t == st.t && r.s == st.s
  {
    hide SubsUntouched, SeatsUntouched;
  }
}
