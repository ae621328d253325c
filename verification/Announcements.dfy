/** What every client finds in its output channel, over whole runs. */
module Announcements {
  import opened Basics
  import opened Protocol
  import opened MetaTopic
  import opened ServerModel
  import opened Mailbox
  import opened Invariants
  import opened TopicSteps
  import opened Handlers
  import opened Growth
  import Mailing

  /** The channel of client `c` holds an announcement of topic id `i` under `name`. */
  predicate AnnouncedAs(ms: seq<Message>, i: TopicIdx, name: string) {
    exists k, j | 0 <= k < |ms| && ms[k].Text? && 0 <= j < |ms[k].msgs| :: AnnouncesId(ms[k].msgs[j], i) && ms[k].msgs[j].announce.name == name
  }

  lemma {:induction false} ChannelsClean(st: State, c: ClientIdx)
    requires Inv(st) && c in st.c.outboxes
    ensures Clean(st.c.outboxes[c], st.tlog.names)
  {
    hide TopicInv, ClientInv, IndexInv, SubInv, Forewarned, Expected, Booked, Clean;
  }

  /** No value goes out before the announcement of its topic, whatever happened to the topic since. */
  lemma {:induction false} AnnounceBeforeValue(states: seq<State>, ops: seq<Op>, j: nat, c: ClientIdx, q: nat, x: nat)
    requires IsRun(states, ops) && j <= |ops| && c in states[j].c.outboxes
    requires q < |states[j].c.outboxes[c]| && states[j].c.outboxes[c][q].Binary? && x < |states[j].c.outboxes[c][q].values|
    ensures Announced(states[j].c.outboxes[c][..q], states[j].c.outboxes[c][q].values[x].0)
  {
    hide Inv, Init, Step, Enabled, Announced;
    RunInv(states, ops, j);
    ChannelsClean(states[j], c);
    assert CleanMessage(states[j].c.outboxes[c][..q], states[j].c.outboxes[c][q], states[j].tlog.names);
  }

  lemma {:induction false} CleanNames(ms: seq<Message>, names: seq<string>, i: TopicIdx, name: string)
    requires Clean(ms, names) && AnnouncedAs(ms, i, name)
    ensures i < |names| && names[i] == name
  {
    var k, j :| 0 <= k < |ms| && ms[k].Text? && 0 <= j < |ms[k].msgs| && AnnouncesId(ms[k].msgs[j], i) && ms[k].msgs[j].announce.name == name;
    assert CleanMessage(ms[..k], ms[k], names);
  }

  lemma {:induction false} AnnouncedName(states: seq<State>, ops: seq<Op>, j: nat, c: ClientIdx, i: TopicIdx, name: string)
    requires IsRun(states, ops) && j <= |ops| && c in states[j].c.outboxes && AnnouncedAs(states[j].c.outboxes[c], i, name)
    ensures i < |states[j].tlog.names| && states[j].tlog.names[i] == name
  {
    hide Inv, Init, Step, Enabled, AnnouncedAs, Clean;
    RunInv(states, ops, j);
    ChannelsClean(states[j], c);
    CleanNames(states[j].c.outboxes[c], states[j].tlog.names, i, name);
  }

  /** A topic id stands for one name, for all clients and all of the run: every two announcements of it agree,
      and so does the topic it belongs to, whenever that is live. */
  lemma {:induction false} OneNamePerId(states: seq<State>, ops: seq<Op>, j: nat, m: nat, c: ClientIdx, i: TopicIdx, name: string)
    requires IsRun(states, ops) && j <= |ops| && m <= |ops| && c in states[j].c.outboxes && AnnouncedAs(states[j].c.outboxes[c], i, name)
    ensures i in states[m].t.topics ==> states[m].t.topics[i].name == name
    ensures forall d, other | d in states[m].c.outboxes && AnnouncedAs(states[m].c.outboxes[d], i, other) :: other == name
  {
    hide Inv, Init, Step, Enabled, AnnouncedAs;
    AnnouncedName(states, ops, j, c, i, name);
    NamesAgree(states, ops, j, m);
    RunInv(states, ops, m);
    LiveName(states[m]);
    forall d, other | d in states[m].c.outboxes && AnnouncedAs(states[m].c.outboxes[d], i, other) ensures other == name {
      AnnouncedName(states, ops, m, d, i, other);
    }
  }

  lemma {:induction false} LiveName(st: State)
    requires Inv(st)
    ensures TopicsNamed(st.t.topics, st.tlog.names)
  {
    hide ClientInv, IndexInv, SubInv, MailInv, MapNamed, HaveLists, Cached;
  }

  /** Of two states of a run, one knows the names of the other. */
  lemma {:induction false} NamesAgree(states: seq<State>, ops: seq<Op>, j: nat, m: nat)
    requires IsRun(states, ops) && j <= |ops| && m <= |ops|
    ensures states[j].tlog.names <= states[m].tlog.names || states[m].tlog.names <= states[j].tlog.names
  {
    hide Inv, Init, Step, Enabled;
    if j <= m {
      RunLater(states, ops, j, m);
    } else {
      RunLater(states, ops, m, j);
    }
  }

  /** The record of announced topics is honest, and a publish is answered at most once per client and topic id. */
  lemma {:induction false} Bookkeeping(states: seq<State>, ops: seq<Op>, j: nat, c: ClientIdx)
    requires IsRun(states, ops) && j <= |ops| && c in states[j].c.outboxes
    ensures forall i :: Replies(states[j].c.outboxes[c], i) <= 1
    ensures c in states[j].c.clients ==> forall i | i in states[j].c.clients[c].announced :: Announced(states[j].c.outboxes[c], i)
  {
    hide Inv, Init, Step, Enabled;
    RunInv(states, ops, j);
    BookedPart(states[j], c);
  }

  lemma {:induction false} BookedPart(st: State, c: ClientIdx)
    requires Inv(st) && c in st.c.outboxes
    ensures forall i :: Replies(st.c.outboxes[c], i) <= 1
    ensures c in st.c.clients ==> BookedBy(st.c.clients[c].announced, st.c.outboxes[c])
  {
    hide TopicInv, ClientInv, IndexInv, SubInv, AllClean, Forewarned, Expected, BookedBy, Replies;
  }

  // ---- the answer to a publish ----

  lemma {:induction false} RespondAnswers(c: ClientTables, n: nat, i: TopicIdx, topic: Topic, pubuid: PubUID, idx: ClientIdx)
    requires Seated(c.clients, c.outboxes, c.clientMap, n) && idx in c.clients && idx in c.outboxes
    ensures var r := Respond(c, i, topic, pubuid, idx);
      && idx in r.clients && idx in r.outboxes && i in r.clients[idx].announced
      && r.outboxes[idx] == c.outboxes[idx] + if i in c.clients[idx].announced then [] else [AnnounceOf(topic, i, Some(AsI32(pubuid)))]
  {
    hide AnnounceOf;
    assert c.outboxes[idx] + [] == c.outboxes[idx];
  }

  lemma {:induction false} ToldGrows(c: ClientTables, whom: set<ClientIdx>, i: TopicIdx, m: Message, idx: ClientIdx)
    requires idx in c.clients && idx in c.outboxes
    ensures var r := Told(c, whom, i, m);
      && idx in r.clients && idx in r.outboxes && c.clients[idx].announced <= r.clients[idx].announced
      && r.outboxes[idx] == c.outboxes[idx] + if idx in whom then [m] else []
  {
    assert c.outboxes[idx] + [] == c.outboxes[idx];
  }

  /** Announcing with a response marks the topic for the responding client, and sends it, once, an answer with its pubuid; after
      that come only announcements without one, to those whose subscriptions match. */
  lemma {:induction false} AnnounceAnswers(st: State, i: TopicIdx, pubuid: PubUID, c: ClientIdx)
    requires Inv(st) && i in st.t.topics && c in st.c.clients && c in st.c.outboxes
    ensures var r, topic, before := AnnounceTopic(st, i, Some((pubuid, c))), st.t.topics[i], st.c.outboxes[c];
      && r.out.Ok? && c in r.st.c.clients && c in r.st.c.outboxes && i in r.st.c.clients[c].announced
      && r.st.c.outboxes[c] == before
           + (if i in st.c.clients[c].announced then [] else [AnnounceOf(topic, i, Some(AsI32(pubuid)))])
           + (if c in Interested(st.s, topic.name) then [AnnounceOf(topic, i, None)] else [])
  {
    hide Inv, Seated, AnnounceOf, Interested, Respond, Told, SubsUntouched, SeatsUntouched;
    Mailing.SeatedPart(st);
    var topic := st.t.topics[i];
    RespondAnswers(st.c, st.counters.clientIdx, i, topic, pubuid, c);
    ToldGrows(Respond(st.c, i, topic, pubuid, c), Interested(st.s, topic.name), i, AnnounceOf(topic, i, None), c);
  }

  lemma {:induction false} RepliesOfAnswer(before: seq<Message>, topic: Topic, i: TopicIdx, pubuid: Option<i32>)
    ensures Replies(before + [AnnounceOf(topic, i, pubuid)], i) == Replies(before, i) + if pubuid.Some? then 1 else 0
  {
    var m := AnnounceOf(topic, i, pubuid);
    RepliesAppend(before, m, i);
    assert m.msgs[..0] == [] && m.msgs == [m.msgs[0]];
  }

  /** A response leaves one answer with a client that was not told about the topic before. */
  lemma {:induction false} AnnounceReplies(st: State, i: TopicIdx, pubuid: PubUID, c: ClientIdx)
    requires Inv(st) && i in st.t.topics && c in st.c.clients && c in st.c.outboxes
    ensures var r := AnnounceTopic(st, i, Some((pubuid, c)));
      c in r.st.c.outboxes && Replies(r.st.c.outboxes[c], i) == if i in st.c.clients[c].announced then Replies(st.c.outboxes[c], i) else 1
  {
    hide Inv, AnnounceOf, Interested, AnnounceTopic, Replies, SubsUntouched, SeatsUntouched;
    var topic, before := st.t.topics[i], st.c.outboxes[c];
    AnnounceAnswers(st, i, pubuid, c);
    RepliesOfAnswer(before, topic, i, Some(AsI32(pubuid)));
    RepliesOfAnswer(before, topic, i, None);
    RepliesOfAnswer(before + [AnnounceOf(topic, i, Some(AsI32(pubuid)))], topic, i, None);
    assert before + [] == before && before + [AnnounceOf(topic, i, Some(AsI32(pubuid)))] + [] == before + [AnnounceOf(topic, i, Some(AsI32(pubuid)))];
    NotBooked(st, c, i);
  }

  lemma {:induction false} NotBooked(st: State, c: ClientIdx, i: TopicIdx)
    requires Inv(st) && c in st.c.clients && c in st.c.outboxes
    ensures i !in st.c.clients[c].announced ==> Replies(st.c.outboxes[c], i) == 0
  {
    BookedPart(st, c);
    hide Inv, Replies;
  }

  // ---- the same for a publish ----

  /** The message is the announcement of this topic id, under this name and with this pubuid. */
  predicate Answers(m: Message, i: TopicIdx, name: string, pubuid: PubUID) {
    && m.Text? && |m.msgs| == 1 && m.msgs[0].Announcement?
    && m.msgs[0].announce.id == i && m.msgs[0].announce.name == name && m.msgs[0].announce.pubuid == Some(AsI32(pubuid))
  }

  predicate Marked(c: ClientTables, idx: ClientIdx, i: TopicIdx) {
    idx in c.clients && i in c.clients[idx].announced
  }

  lemma {:induction false} FreshUnmarked(st: State, c: ClientIdx)
    requires Inv(st) && c in st.c.outboxes
    ensures !Marked(st.c, c, st.counters.topicIdx)
  {
    assert |st.tlog.names| == st.counters.topicIdx by { hide Cached, HaveLists, MapNamed, TopicsNamed, ClientInv, IndexInv, SubInv, MailInv, OwnNames; }
    hide Inv, Clean, Announced, Replies;
    ChannelsClean(st, c);
    BookedPart(st, c);
    if Announced(st.c.outboxes[c], st.counters.topicIdx) {
      SomeName(st.c.outboxes[c], st.tlog.names, st.counters.topicIdx);
    }
  }

  lemma {:induction false} SomeName(ms: seq<Message>, names: seq<string>, i: TopicIdx)
    requires Clean(ms, names) && Announced(ms, i)
    ensures i < |names|
  {
    var k :| 0 <= k < |ms| && Announces(ms[k], i);
    assert CleanMessage(ms[..k], ms[k], names);
  }

  /** Announcing a topic without a response marks no other topic. */
  lemma {:induction false} OthersUnmarked(st: State, i: TopicIdx, c: ClientIdx, k: TopicIdx)
    requires k != i
    ensures Marked(AnnounceTopic(st, i, None).st.c, c, k) <==> Marked(st.c, c, k)
  {
    hide AnnounceOf, Interested, SubsUntouched, SeatsUntouched;
  }

  lemma {:induction false} AddMetaMarks(st: State, name: string, c: ClientIdx, k: TopicIdx)
    requires Inv(st) && '$' in name && k < |st.tlog.names| && st.tlog.names[k] != name
    ensures Marked(AddMeta(st, name).st.c, c, k) <==> Marked(st.c, c, k)
    ensures var r := AddMeta(st, name).st; Inv(r) && st.tlog.names <= r.tlog.names
  {
    AddMetaInv(st, name);
    AddTopicLeaf(st, NewMeta(name));
    assert AddTopic(st, NewMeta(name)).st.c == st.c by { hide Inv, SubsUntouched, SeatsUntouched; }
    hide Inv, AddTopic, AnnounceTopic, Marked, SubsUntouched, SeatsUntouched;
    var r := AddTopic(st, NewMeta(name));
    if r.out.Ok? {
      OthersUnmarked(r.st, r.out.value, c, k);
    }
  }

  lemma {:induction false} AddOrdinaryMarks(st: State, topic: Topic, c: ClientIdx)
    requires Inv(st) && topic.name !in st.t.topicMap && '$' !in topic.name
    ensures Marked(AddTopic(st, topic).st.c, c, st.counters.topicIdx) <==> Marked(st.c, c, st.counters.topicIdx)
  {
    hide Inv, Alloc, AddMeta, Marked, PubMeta, SubMeta, SubsUntouched, SeatsUntouched;
    var st1, i := Alloc(st, topic), st.counters.topicIdx;
    AllocInv(st, topic);
    AllocNamed(st, topic);
    MetaNames(topic.name);
    AddMetaMarks(st1, PubMeta(topic.name), c, i);
    var p := AddMeta(st1, PubMeta(topic.name));
    AddMetaMarks(p.st, SubMeta(topic.name), c, i);
  }

  /** Adding a topic finds it, and changes nothing, or makes one that no client was told about. */
  lemma {:induction false} AddTopicMarks(st: State, topic: Topic, c: ClientIdx)
    requires Inv(st) && c in st.c.outboxes && AddTopic(st, topic).out.Ok?
    ensures var a := AddTopic(st, topic);
      a.st == st || (!Marked(st.c, c, a.out.value) && !Marked(a.st.c, c, a.out.value))
  {
    hide Inv, Alloc, AddMeta, Marked, SubsUntouched, SeatsUntouched;
    if topic.name !in st.t.topicMap {
      FreshUnmarked(st, c);
      AllocNamed(st, topic);
      if '$' !in topic.name {
        AddOrdinaryMarks(st, topic, c);
      }
    }
  }

  lemma {:induction false} AllocNamed(st: State, topic: Topic)
    requires Inv(st)
    ensures var r := Alloc(st, topic); st.counters.topicIdx < |r.tlog.names| && r.tlog.names[st.counters.topicIdx] == topic.name && r.c == st.c
  {
    hide Cached, HaveLists, MapNamed, TopicsNamed, ClientInv, IndexInv, SubInv, MailInv, OwnNames, SubsUntouched, SeatsUntouched;
  }

  /** Binding the pubuid and extending the publisher list sends nothing. */
  lemma {:induction false} BindSilent(st: State, c: ClientIdx, p: PublishTopic, i: TopicIdx)
    requires c in st.c.clients
    ensures var r := UpdatePublishers(BindPub(st, c, p.pubuid, i, p.name), c, ClientPublisherMTE(p.name, p.pubuid), true).st;
      r.c.outboxes == st.c.outboxes && c in r.c.clients && r.c.clients[c].announced == st.c.clients[c].announced
  {
    hide SubsUntouched, SeatsUntouched;
  }

  lemma {:induction false} PublishShape(st: State, p: PublishTopic, c: ClientIdx)
    requires PublishStep(st, p, c).out.Ok?
    ensures var a := AddTopic(st, FromPublishTopic(p));
      && a.out.Ok? && a.out.value in a.st.t.topics && c in a.st.c.clients && PublishStep(st, p, c).out == a.out
      && var b := AnnounceTopic(a.st, a.out.value, Some((p.pubuid, c)));
      && c in b.st.c.clients
      && PublishStep(st, p, c).st == UpdatePublishers(BindPub(b.st, c, p.pubuid, a.out.value, p.name), c, ClientPublisherMTE(p.name, p.pubuid), true).st
  {
    hide AddTopic, BindPub, UpdatePublishers, Told, Respond, AnnounceOf, Interested;
  }

  /** At any point of any run, for any topic: the first publish of it by a client that was not told about it puts the one answer
      into the client's channel, with the topic's id and name and the pubuid; another puts none there. */
  lemma {:induction false} PublishAnswered(states: seq<State>, ops: seq<Op>, j: nat, p: PublishTopic, c: ClientIdx)
    requires IsRun(states, ops) && j <= |ops| && c in states[j].c.clients && c in states[j].c.outboxes
    requires PublishStep(states[j], p, c).out.Ok?
    ensures var st, r := states[j], PublishStep(states[j], p, c);
      var i := r.out.value;
      && c in r.st.c.clients && c in r.st.c.outboxes && i in r.st.c.clients[c].announced
      && var before, after := st.c.outboxes[c], r.st.c.outboxes[c];
      && before <= after
      && if i in st.c.clients[c].announced then Replies(after, i) == Replies(before, i)
         else
           && Replies(before, i) == 0 && Replies(after, i) == 1
           && exists k | |before| <= k < |after| :: Answers(after[k], i, p.name, p.pubuid)
  {
    hide Inv, Init, Step, Enabled, AddTopic, AnnounceTopic, PublishStep, BindPub, UpdatePublishers, Replies, Answers, SubsUntouched, SeatsUntouched, Later;
    RunInv(states, ops, j);
    var st := states[j];
    PublishShape(st, p, c);
    var a := AddTopic(st, FromPublishTopic(p));
    var i := a.out.value;
    AddTopicInv(st, FromPublishTopic(p));
    AddTopicLater(st, FromPublishTopic(p));
    LaterOutbox(st, a.st, c);
    AddTopicMarks(st, FromPublishTopic(p), c);
    AnnounceReplies(a.st, i, p.pubuid, c);
    AnnounceAnswers(a.st, i, p.pubuid, c);
    NotBooked(st, c, i);
    NotBooked(a.st, c, i);
    var b := AnnounceTopic(a.st, i, Some((p.pubuid, c)));
    BindSilent(b.st, c, p, i);
    if i !in a.st.c.clients[c].announced {
      LiveNamed(a.st, a.out, p.name);
      AnswerAnswers(a.st.t.topics[i], i, p.pubuid);
      assert b.st.c.outboxes[c][|a.st.c.outboxes[c]|] == AnnounceOf(a.st.t.topics[i], i, Some(AsI32(p.pubuid)));
    }
    hide AnnounceOf, Interested;
  }

  lemma {:induction false} LaterOutbox(a: State, b: State, c: ClientIdx)
    requires Later(a, b) && c in a.c.outboxes
    ensures c in b.c.outboxes && a.c.outboxes[c] <= b.c.outboxes[c]
  {
    hide TopicsLater, LogLater, SubsLater, CountersLater;
  }

  lemma {:induction false} LiveNamed(st: State, out: Outcome<TopicIdx>, name: string)
    requires Inv(st) && NamesTopic(st, out, name) && out.Ok? && out.value in st.t.topics
    ensures st.t.topics[out.value].name == name
  {
    hide ClientInv, IndexInv, SubInv, MailInv, MapNamed, HaveLists, Cached, OwnNames;
  }

  lemma {:induction false} AnswerAnswers(topic: Topic, i: TopicIdx, pubuid: PubUID)
    ensures Answers(AnnounceOf(topic, i, Some(AsI32(pubuid))), i, topic.name, pubuid)
  {}
}
