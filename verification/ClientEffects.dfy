/** What a client makes of single messages and values, field by field, and of the announcements of a whole channel. */
module ClientEffects {
  import opened Basics
  import opened Protocol
  import opened ServerModel
  import opened Mailbox
  import opened Invariants
  import opened Handlers
  import opened Meanings
  import opened ClientModel
  import opened ClientFold

  // ---- values ----

  lemma {:induction false} ClientMatching(sub: InternalSub, topic: Topic)
    ensures sub.MatchesTopic(topic) <==> sub.data.Some? && AsksFor(sub.data.value, topic.name)
  {
    if sub.data.Some? {
      SidesMatch(sub, topic);
      MatchingMeans(sub.data.value, topic.name);
    }
  }

  /** What a value of a topic does to one subscription: dropped by its user, or asking for the name with a full channel, it goes; asking
      for the name with room, it is given the value; else it stays as it is. */
  ghost predicate ToldOf(before: InternalSub, after: Option<InternalSub>, name: string, message: MessageData) {
    if before.data.None? then after.None?
    else if !AsksFor(before.data.value, name) then after == Some(before)
    else if before.room == 0 then after.None?
    else after == Some(InternalSub(before.data, before.room - 1, before.inbox + [message], before.taken))
  }

  lemma {:induction false} TellExact(subs: map<i32, InternalSub>, topic: Topic, message: MessageData)
    ensures var r := Tell(subs, topic, message);
      && r.Keys <= subs.Keys
      && forall u | u in subs :: ToldOf(subs[u], Lookup(r, u), topic.name, message)
  {
    forall u | u in subs { ClientMatching(subs[u], topic); }
    hide AsksFor, InternalSub.MatchesTopic;
  }

  /** The signed low half of a 64-bit integer. */
  predicate IsCast(n: int, id: i32) {
    (n - id) % 0x1_0000_0000 == 0
  }

  lemma {:induction false} TruncatedMeans(n: int)
    ensures IsCast(n, Truncated(n))
    ensures forall id: i32 | IsCast(n, id) :: id == Truncated(n)
  {
    assert n % 0x1_0000_0000 < 0x1_0000_0000;
  }

  /** Nothing but one error more. */
  predicate Logs(before: ClientState, after: ClientState, e: ClientError) {
    after == ClientState(before.announced, before.subs, before.errors + [e])
  }

  /** An array of a wrong length, a type code that is not known, an id below -1 and an id that was not announced are logged, each as itself, and
      change nothing else; an array without id, time or type code, and one for id -1, change nothing; any other value goes to the subscriptions
      under the name of its topic, with the low half of its time. */
  lemma {:induction false} ValueExact(cs: ClientState, w: WireValue, id: i32)
    requires w.id.Some? ==> IsCast(w.id.value, id)
    ensures var r := HandleValue(cs, w);
      if w.length != 4 then Logs(cs, r, WrongLength)
      else if w.id.None? || w.timestamp.None? then r == cs
      else if id == -1 then r == cs
      else if id < -1 then Logs(cs, r, InvalidId)
      else if w.code.NoCode? then r == cs
      else if w.code.UnknownCode? then Logs(cs, r, InvalidType)
      else if id !in cs.announced then Logs(cs, r, NotAnnounced(id))
      else
        var name := cs.announced[id].name;
        && r.announced == cs.announced && r.errors == cs.errors && r.subs.Keys <= cs.subs.Keys
        && forall u | u in cs.subs :: ToldOf(cs.subs[u], Lookup(r.subs, u), name, MessageData(name, w.timestamp.value % 0x1_0000_0000, w.code.kind, w.data))
  {
    if w.id.Some? {
      TruncatedMeans(w.id.value);
    }
    if w.length == 4 && w.id.Some? && w.timestamp.Some? && w.code.Code? && id in cs.announced {
      TellExact(cs.subs, cs.announced[id], MessageData(cs.announced[id].name, w.timestamp.value % 0x1_0000_0000, w.code.kind, w.data));
    }
    hide Tell, Truncated, ToldOf, IsCast;
  }

  // ---- announcements ----

  /** An announcement is taken note of unless the id is known; a withdrawal makes it unknown; properties are ignored; whatever else comes is
      logged. No subscription changes. */
  lemma {:induction false} TextExact(cs: ClientState, n: NTMessage)
    ensures var r := HandleText(cs, n);
      && r.subs == cs.subs
      && match n
         case Announcement(a) =>
           r.errors == cs.errors && r.announced == if a.id in cs.announced then cs.announced else cs.announced[a.id := Topic(a.name, a.kind, Some(a.properties))]
         case UnAnnounce(_, i) => r.errors == cs.errors && r.announced == cs.announced - {i}
         case Properties(_, _) => r == cs
         case _ => Logs(cs, r, InvalidMessage)
  {}

  /** A new connection knows the time only, under id -1. */
  lemma {:induction false} OpenedMeans(subs: map<i32, InternalSub>, errors: seq<ClientError>)
    ensures Opened(subs, errors) == ClientState(map[-1 := Topic("Time", "int", None)], subs, errors)
  {}

  /** The first announcement of an id. */
  function FirstHeard(items: seq<Item>, i: TopicIdx): Option<Announce> {
    if items == [] then None
    else
      var before, last := FirstHeard(items[..|items| - 1], i), items[|items| - 1];
      if before.None? && last.Heard? && AnnouncesId(last.msg, i) then Some(last.msg.announce) else before
  }

  /** The client knows each id as its first announcement says. */
  ghost predicate KnowsFirst(announced: map<int, Topic>, items: seq<Item>) {
    forall i: nat :: Lookup(announced, i) ==
      match FirstHeard(items, i)
      case None => None
      case Some(a) => Some(Topic(a.name, a.kind, Some(a.properties)))
  }

  lemma {:induction false} FirstMore(front: seq<Item>, last: Item, i: TopicIdx)
    ensures FirstHeard(front + [last], i) ==
      if FirstHeard(front, i).None? && last.Heard? && AnnouncesId(last.msg, i) then Some(last.msg.announce) else FirstHeard(front, i)
  {
    assert (front + [last])[..|front|] == front;
  }

  lemma {:induction false} KnowsFirstMore(cs: ClientState, front: seq<Item>, last: Item)
    requires KnowsFirst(cs.announced, front) && (last.Heard? ==> last.msg.Announcement?)
    ensures KnowsFirst(HandleItem(cs, last).announced, front + [last])
  {
    forall i: nat { FirstMore(front, last, i); }
    hide FirstHeard, Tell;
  }

  lemma {:induction false} FoldKnowsFirst(subs: map<i32, InternalSub>, items: seq<Item>, names: seq<string>)
    requires CleanItems(items, names)
    ensures KnowsFirst(FoldItems(Opened(subs, []), items).announced, items)
  {
    hide HeardOf, HandleItem, KnowsFirst;
    if items == [] {
      KnowsNothing(subs);
    } else {
      var front, last := items[..|items| - 1], items[|items| - 1];
      CleanItemsPrefix(items, front, names);
      assert CleanItem(front, last, names);
      FoldKnowsFirst(subs, front, names);
      assert items == front + [last];
      KnowsFirstMore(FoldItems(Opened(subs, []), front), front, last);
    }
  }

  lemma {:induction false} KnowsNothing(subs: map<i32, InternalSub>)
    ensures KnowsFirst(Opened(subs, []).announced, [])
  {}

  /** However far a client came with its channel: it knows each topic by name, type and properties of the first announcement of its id. */
  lemma {:induction false} FirstAnnouncementCounts(states: seq<State>, ops: seq<Op>, j: nat, c: ClientIdx, items: seq<Item>, subs: map<i32, InternalSub>)
    requires IsRun(states, ops) && j <= |ops| && c in states[j].c.outboxes && Arrivals(items) <= ItemsOf(states[j].c.outboxes[c])
    ensures KnowsFirst(FoldItems(Opened(subs, []), items).announced, items)
  {
    hide Inv, Init, Step, Enabled, FoldItems, CleanItems, KnowsFirst, Arrivals, ItemsOf;
    ChannelItemsClean(states, ops, j, c, items);
    FoldKnowsFirst(subs, items, states[j].tlog.names);
  }
}
