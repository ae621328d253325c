/** The client's fold composed with the server's channel: ids always resolve, and to the server's names. Arrivals are taken piece by
    piece, and users may receive between any two of them. */
module ClientFold {
  import opened Basics
  import opened Protocol
  import opened ServerModel
  import opened Mailbox
  import opened Invariants
  import opened Handlers
  import opened Announcements
  import opened ClientModel

  /** Both sides decide in the same way whether a subscription matches a name. */
  lemma {:induction false} SidesMatch(sub: InternalSub, topic: Topic)
    requires sub.data.Some?
    ensures sub.MatchesTopic(topic) <==> sub.data.value.CaresAbout(topic.name)
  {}

  lemma {:induction false} SmallIds(i: nat)
    requires i < 0x8000_0000
    ensures Truncated(i) == i
  {}

  // ---- folds ----

  lemma {:induction false} FoldItemsAppend(cs: ClientState, items: seq<Item>, more: seq<Item>)
    ensures FoldItems(cs, items + more) == FoldItems(FoldItems(cs, items), more)
  {
    hide HandleItem;
    if more == [] {
      assert items + more == items;
    } else {
      FoldItemsAppend(cs, items, more[..|more| - 1]);
      assert (items + more)[..|items + more| - 1] == items + more[..|more| - 1];
    }
  }

  lemma {:induction false} TextsAreItems(cs: ClientState, msgs: seq<NTMessage>)
    ensures HandleTexts(cs, msgs) == FoldItems(cs, ItemsIn(Text(msgs)))
  {
    hide HandleText;
    if msgs != [] {
      TextsAreItems(cs, msgs[..|msgs| - 1]);
      assert ItemsIn(Text(msgs))[..|msgs| - 1] == ItemsIn(Text(msgs[..|msgs| - 1]));
    }
  }

  lemma {:induction false} ValuesAreItems(cs: ClientState, values: seq<(TopicIdx, TimestampedValue)>)
    ensures HandleValues(cs, EncodedAll(values)) == FoldItems(cs, ItemsIn(Binary(values)))
  {
    hide HandleValue;
    if values != [] {
      ValuesAreItems(cs, values[..|values| - 1]);
      assert ItemsIn(Binary(values))[..|values| - 1] == ItemsIn(Binary(values[..|values| - 1]));
      assert EncodedAll(values)[..|values| - 1] == EncodedAll(values[..|values| - 1]);
    }
  }

  /** Handling whole messages is handling their pieces in order. */
  lemma {:induction false} FoldIsItems(cs: ClientState, ms: seq<Message>)
    ensures Fold(cs, ms) == FoldItems(cs, ItemsOf(ms))
  {
    hide HandleItem, ItemsIn, HandleTexts, HandleValues, EncodedAll;
    if ms != [] {
      var front, last := ms[..|ms| - 1], ms[|ms| - 1];
      FoldIsItems(cs, front);
      FoldItemsAppend(cs, ItemsOf(front), ItemsIn(last));
      match last
      case Text(msgs) => TextsAreItems(Fold(cs, front), msgs);
      case Binary(values) => ValuesAreItems(Fold(cs, front), values);
    }
  }

  // ---- clean arrivals ----

  predicate HeardOf(items: seq<Item>, i: TopicIdx) {
    exists k | 0 <= k < |items| :: items[k].Heard? && AnnouncesId(items[k].msg, i)
  }

  /** Announcements are truthful; values refer to topics announced before. */
  predicate CleanItem(before: seq<Item>, item: Item, names: seq<string>) {
    match item
    case Heard(msg) => Truthful(msg, names)
    case Carried(value) => HeardOf(before, value.0)
    case Next(_) => true
  }

  predicate CleanItems(items: seq<Item>, names: seq<string>) {
    forall k | 0 <= k < |items| :: CleanItem(items[..k], items[k], names)
  }

  lemma {:induction false} HeardMore(items: seq<Item>, item: Item, i: TopicIdx)
    ensures HeardOf(items + [item], i) <==> HeardOf(items, i) || (item.Heard? && AnnouncesId(item.msg, i))
  {
    var all := items + [item];
    assert all[|items|] == item && forall k | 0 <= k < |items| :: all[k] == items[k];
  }

  lemma {:induction false} HeardAppend(items: seq<Item>, more: seq<Item>, i: TopicIdx)
    ensures HeardOf(items + more, i) <==> HeardOf(items, i) || HeardOf(more, i)
  {
    var all := items + more;
    assert (forall k | 0 <= k < |items| :: all[k] == items[k]) && forall k | 0 <= k < |more| :: all[|items| + k] == more[k];
    if HeardOf(all, i) {
      var k :| 0 <= k < |all| && all[k].Heard? && AnnouncesId(all[k].msg, i);
      if k >= |items| {
        assert more[k - |items|] == all[k];
      }
    }
  }

  lemma {:induction false} HeardInMessage(m: Message, i: TopicIdx)
    ensures HeardOf(ItemsIn(m), i) <==> Announces(m, i)
  {
    var items := ItemsIn(m);
    if m.Text? {
      assert forall k | 0 <= k < |m.msgs| :: items[k] == Heard(m.msgs[k]);
    }
  }

  lemma {:induction false} AnnouncedMore(before: seq<Message>, m: Message, i: nat)
    ensures Announced(before + [m], i) <==> Announced(before, i) || Announces(m, i)
  {
    AnnouncedGrows(before, [m]);
    if Announces(m, i) {
      AnnouncedLast(before, m, i);
    }
    if Announced(before + [m], i) {
      var k :| 0 <= k < |before + [m]| && Announces((before + [m])[k], i);
      if k < |before| {
        assert Announces(before[k], i);
      }
    }
  }

  lemma {:induction false} HeardInMessages(ms: seq<Message>, i: TopicIdx)
    ensures HeardOf(ItemsOf(ms), i) <==> Announced(ms, i)
  {
    hide HeardOf, Announced, Announces, ItemsIn;
    if ms == [] {
      NothingHeard(i);
    } else {
      var front, last := ms[..|ms| - 1], ms[|ms| - 1];
      HeardInMessages(front, i);
      HeardAppend(ItemsOf(front), ItemsIn(last), i);
      HeardInMessage(last, i);
      assert ms == front + [last];
      AnnouncedMore(front, last, i);
    }
  }

  lemma {:induction false} NothingHeard(i: TopicIdx)
    ensures !HeardOf([], i) && !Announced([], i)
  {}

  lemma {:induction false} CleanItemsAppend(items: seq<Item>, more: seq<Item>, names: seq<string>)
    requires CleanItems(items, names) && forall k | 0 <= k < |more| :: CleanItem(items + more[..k], more[k], names)
    ensures CleanItems(items + more, names)
  {
    hide CleanItem;
    var all := items + more;
    forall k | 0 <= k < |all| ensures CleanItem(all[..k], all[k], names) {
      if k < |items| {
        assert all[..k] == items[..k];
      } else {
        assert all[..k] == items + more[..k - |items|];
      }
    }
  }

  lemma {:induction false} CleanPieces(before: seq<Message>, m: Message, names: seq<string>)
    requires CleanMessage(before, m, names)
    ensures forall k | 0 <= k < |ItemsIn(m)| :: CleanItem(ItemsOf(before) + ItemsIn(m)[..k], ItemsIn(m)[k], names)
  {
    hide Announced, HeardOf;
    forall k | 0 <= k < |ItemsIn(m)| ensures CleanItem(ItemsOf(before) + ItemsIn(m)[..k], ItemsIn(m)[k], names) {
      if m.Binary? {
        HeardInMessages(before, m.values[k].0);
        HeardAppend(ItemsOf(before), ItemsIn(m)[..k], m.values[k].0);
      }
    }
  }

  lemma {:induction false} CleanPrefix(ms: seq<Message>, k: nat, names: seq<string>)
    requires Clean(ms, names) && k <= |ms|
    ensures Clean(ms[..k], names)
  {
    forall j | 0 <= j < k ensures CleanMessage(ms[..k][..j], ms[..k][j], names) {
      assert ms[..k][..j] == ms[..j] && CleanMessage(ms[..j], ms[j], names);
    }
  }

  lemma {:induction false} CleanPieceByPiece(ms: seq<Message>, names: seq<string>)
    requires Clean(ms, names)
    ensures CleanItems(ItemsOf(ms), names)
  {
    hide CleanItem, CleanMessage, ItemsIn;
    if ms != [] {
      var front, last := ms[..|ms| - 1], ms[|ms| - 1];
      CleanPrefix(ms, |ms| - 1, names);
      assert CleanMessage(front, last, names);
      CleanPieceByPiece(front, names);
      CleanPieces(front, last, names);
      CleanItemsAppend(ItemsOf(front), ItemsIn(last), names);
    }
  }

  lemma {:induction false} CleanItemsPrefix(items: seq<Item>, some: seq<Item>, names: seq<string>)
    requires CleanItems(items, names) && some <= items
    ensures CleanItems(some, names)
  {
    hide CleanItem;
    forall k | 0 <= k < |some| ensures CleanItem(some[..k], some[k], names) {
      assert some[..k] == items[..k] && some[k] == items[k];
    }
  }

  lemma {:induction false} ArrivalsHeard(items: seq<Item>, i: TopicIdx)
    ensures HeardOf(Arrivals(items), i) <==> HeardOf(items, i)
  {
    hide HeardOf;
    if items != [] {
      var front, last := items[..|items| - 1], items[|items| - 1];
      ArrivalsHeard(front, i);
      assert items == front + [last] && Arrivals(front) + [] == Arrivals(front);
      HeardMore(front, last, i);
      HeardMore(Arrivals(front), last, i);
    }
  }

  /** Receiving in between does no harm. */
  lemma {:induction false} ArrivalsClean(items: seq<Item>, names: seq<string>)
    requires CleanItems(Arrivals(items), names)
    ensures CleanItems(items, names)
  {
    hide HeardOf;
    if items != [] {
      var front, last := items[..|items| - 1], items[|items| - 1];
      CleanItemsPrefix(Arrivals(items), Arrivals(front), names);
      ArrivalsClean(front, names);
      if !last.Next? {
        assert Arrivals(items)[|Arrivals(front)|] == last && Arrivals(items)[..|Arrivals(front)|] == Arrivals(front);
        assert CleanItem(Arrivals(front), last, names);
      }
      if last.Carried? {
        ArrivalsHeard(front, last.value.0);
      }
      CleanItemsAppend(front, [last], names) by { assert [last][..0] == [] && front + [] == front; }
      assert items == front + [last];
    }
  }

  // ---- what the client knows ----

  /** The client knows just the topics it heard of, by the server's names. */
  ghost predicate Knows(announced: map<int, Topic>, items: seq<Item>, names: seq<string>) {
    && (forall i: nat :: i in announced <==> HeardOf(items, i))
    && (forall i: nat | i in announced :: i < |names| && announced[i].name == names[i])
  }

  lemma {:induction false} KnowsMore(cs: ClientState, items: seq<Item>, n: NTMessage, names: seq<string>)
    requires Knows(cs.announced, items, names) && Truthful(n, names)
    ensures var r := HandleText(cs, n); Knows(r.announced, items + [Heard(n)], names) && r.errors == cs.errors && r.subs == cs.subs
  {
    forall i: nat { HeardMore(items, Heard(n), i); }
    hide HeardOf;
  }

  /** What else happens leaves that as it is. */
  lemma {:induction false} KnowsStill(announced: map<int, Topic>, items: seq<Item>, item: Item, names: seq<string>)
    requires Knows(announced, items, names) && !item.Heard?
    ensures Knows(announced, items + [item], names)
  {
    forall i: nat { HeardMore(items, item, i); }
    hide HeardOf;
  }

  lemma {:induction false} TakesOne(cs: ClientState, items: seq<Item>, names: seq<string>, i: TopicIdx, v: TimestampedValue)
    requires Knows(cs.announced, items, names) && HeardOf(items, i) && |names| <= 0x8000_0000
    ensures var r := HandleValue(cs, Encoded(i, v));
      && i in cs.announced && i < |names| && cs.announced[i].name == names[i]
      && r == cs.(subs := Tell(cs.subs, cs.announced[i], Shown(names[i], v)))
  {
    assert i in cs.announced;
    SmallIds(i);
    hide HeardOf, Tell, Truncated;
  }

  /** Whatever arrived piece by piece from a clean channel, and whatever users took: no error, and just the announced topics are
      known, by their server names. */
  lemma {:induction false} FoldKnows(subs: map<i32, InternalSub>, items: seq<Item>, names: seq<string>)
    requires CleanItems(items, names) && |names| <= 0x8000_0000
    ensures var cs := FoldItems(Opened(subs, []), items); Knows(cs.announced, items, names) && cs.errors == []
  {
    if items == [] {
      forall i { NothingHeard(i); }
      hide HeardOf;
    } else {
      var front, last := items[..|items| - 1], items[|items| - 1];
      hide Knows, HeardOf, HandleText, HandleValue, Truthful, Tell;
      CleanItemsPrefix(items, front, names);
      assert CleanItem(front, last, names);
      FoldKnows(subs, front, names);
      var cs := FoldItems(Opened(subs, []), front);
      assert items == front + [last];
      match last
      case Heard(msg) => KnowsMore(cs, front, msg, names);
      case Carried(value) =>
        TakesOne(cs, front, names, value.0, value.1);
        KnowsStill(cs.announced, front, last, names);
      case Next(_) => KnowsStill(cs.announced, front, last, names);
    }
  }

  // ---- what a user gets ----

  /** A value as it is put into a user's channel. */
  function Shown(name: string, v: TimestampedValue): MessageData {
    MessageData(name, v.timestamp % 0x1_0000_0000, v.value.kind, v.value.data)
  }

  /** What one value adds to the channel of a subscription. */
  function WantedOne(value: (TopicIdx, TimestampedValue), sub: Subscription, names: seq<string>): seq<MessageData> {
    if value.0 < |names| && sub.CaresAbout(names[value.0]) then [Shown(names[value.0], value.1)] else []
  }

  /** What a subscription should be given of these. */
  function Wanted(items: seq<Item>, sub: Subscription, names: seq<string>): seq<MessageData> {
    if items == [] then []
    else
      var last := items[|items| - 1];
      Wanted(items[..|items| - 1], sub, names) + if last.Carried? then WantedOne(last.value, sub, names) else []
  }

  /** How much a user received of a channel that starts with `queued` values: each time it asks, one if there is one. */
  function Asked(items: seq<Item>, u: i32, queued: nat, sub: Subscription, names: seq<string>): nat {
    if items == [] then 0
    else
      var front := items[..|items| - 1];
      var n := Asked(front, u, queued, sub, names);
      if items[|items| - 1] == Next(u) && n < queued + |Wanted(front, sub, names)| then n + 1 else n
  }

  /** What is not received yet never exceeds what the channel takes. */
  predicate Fits(items: seq<Item>, u: i32, queued: nat, room: nat, sub: Subscription, names: seq<string>) {
    forall k | 0 <= k <= |items| :: |Wanted(items[..k], sub, names)| <= room + Asked(items[..k], u, queued, sub, names)
  }

  predicate InUse(sub: InternalSub) {
    sub.data.Some? && sub.taken <= |sub.inbox|
  }

  /** The subscription, once it was given and the user received what it should; or it is dropped. */
  predicate Gets(subs: map<i32, InternalSub>, u: i32, start: InternalSub, items: seq<Item>, names: seq<string>)
    requires InUse(start)
  {
    var sub, queued := start.data.value, |start.inbox| - start.taken;
    if Fits(items, u, queued, start.room, sub, names) then
      var wanted, asked := Wanted(items, sub, names), Asked(items, u, queued, sub, names);
      && |wanted| <= start.room + asked
      && u in subs && subs[u] == InternalSub(start.data, start.room + asked - |wanted|, start.inbox + wanted, start.taken + asked)
    else u !in subs
  }

  lemma {:induction false} FitsMore(front: seq<Item>, last: Item, u: i32, queued: nat, room: nat, sub: Subscription, names: seq<string>)
    ensures var items := front + [last];
      Fits(items, u, queued, room, sub, names) <==>
        Fits(front, u, queued, room, sub, names) && |Wanted(items, sub, names)| <= room + Asked(items, u, queued, sub, names)
  {
    hide Wanted, Asked;
    var items := front + [last];
    assert items[..|items|] == items && forall k | 0 <= k <= |front| :: items[..k] == front[..k];
  }

  lemma {:induction false} Given(front: seq<Item>, last: Item, u: i32, queued: nat, sub: Subscription, names: seq<string>)
    ensures var items := front + [last];
      && Wanted(items, sub, names) == Wanted(front, sub, names) + (if last.Carried? then WantedOne(last.value, sub, names) else [])
      && var n := Asked(front, u, queued, sub, names);
      Asked(items, u, queued, sub, names) == if last == Next(u) && n < queued + |Wanted(front, sub, names)| then n + 1 else n
  {
    assert (front + [last])[..|front|] == front;
  }

  /** Not more is received than was queued. */
  lemma {:induction false} AskedBound(items: seq<Item>, u: i32, queued: nat, sub: Subscription, names: seq<string>)
    ensures Asked(items, u, queued, sub, names) <= queued + |Wanted(items, sub, names)|
  {
    hide WantedOne;
    if items != [] {
      AskedBound(items[..|items| - 1], u, queued, sub, names);
    }
  }

  lemma {:induction false} GetsValue(subs: map<i32, InternalSub>, topic: Topic, value: (TopicIdx, TimestampedValue), u: i32, start: InternalSub, front: seq<Item>, names: seq<string>)
    requires InUse(start) && Gets(subs, u, start, front, names) && value.0 < |names| && topic.name == names[value.0]
    ensures Gets(Tell(subs, topic, Shown(topic.name, value.1)), u, start, front + [Carried(value)], names)
  {
    hide Wanted, Asked, Fits, InternalSub.MatchesTopic, Subscription.CaresAbout, Shown;
    var sub, queued := start.data.value, |start.inbox| - start.taken;
    Given(front, Carried(value), u, queued, sub, names);
    FitsMore(front, Carried(value), u, queued, start.room, sub, names);
    if u in subs {
      SidesMatch(subs[u], topic);
    }
    var wanted := Wanted(front, sub, names);
    assert start.inbox + (wanted + [Shown(topic.name, value.1)]) == start.inbox + wanted + [Shown(topic.name, value.1)] && wanted + [] == wanted;
  }

  lemma {:induction false} GetsNext(subs: map<i32, InternalSub>, w: i32, u: i32, start: InternalSub, front: seq<Item>, names: seq<string>)
    requires InUse(start) && Gets(subs, u, start, front, names)
    ensures Gets(if w in subs then subs[w := subs[w].TryNext().0] else subs, u, start, front + [Next(w)], names)
  {
    hide Wanted, Asked, Fits;
    var sub, queued := start.data.value, |start.inbox| - start.taken;
    Given(front, Next(w), u, queued, sub, names);
    FitsMore(front, Next(w), u, queued, start.room, sub, names);
    assert Wanted(front, sub, names) + [] == Wanted(front, sub, names);
  }

  lemma {:induction false} GetsText(subs: map<i32, InternalSub>, msg: NTMessage, u: i32, start: InternalSub, front: seq<Item>, names: seq<string>)
    requires InUse(start) && Gets(subs, u, start, front, names)
    ensures Gets(subs, u, start, front + [Heard(msg)], names)
  {
    hide Wanted, Asked, Fits;
    var sub, queued := start.data.value, |start.inbox| - start.taken;
    Given(front, Heard(msg), u, queued, sub, names);
    FitsMore(front, Heard(msg), u, queued, start.room, sub, names);
    assert Wanted(front, sub, names) + [] == Wanted(front, sub, names);
  }

  lemma {:induction false} GetsNothing(u: i32, start: InternalSub, names: seq<string>)
    requires InUse(start)
    ensures Gets(map[u := start], u, start, [], names)
  {
    assert start.inbox + [] == start.inbox;
    var none: seq<Item> := [];
    assert forall k | 0 <= k <= |none| :: none[..k] == none;
  }

  lemma {:induction false} SameGets(a: map<i32, InternalSub>, b: map<i32, InternalSub>, u: i32, start: InternalSub, items: seq<Item>, names: seq<string>)
    requires InUse(start) && Gets(a, u, start, items, names) && Lookup(a, u) == Lookup(b, u)
    ensures Gets(b, u, start, items, names)
  {
    hide Fits, Wanted, Asked;
  }

  /** A subscription is given just the values of the topics it matches, in order, as long as its channel has room. */
  lemma {:induction false} FoldDelivers(subs: map<i32, InternalSub>, items: seq<Item>, names: seq<string>, u: i32)
    requires CleanItems(items, names) && |names| <= 0x8000_0000 && u in subs && InUse(subs[u])
    ensures Gets(FoldItems(Opened(subs, []), items).subs, u, subs[u], items, names)
  {
    hide Knows, HeardOf, HandleValue, Truthful, Tell, Gets, Shown;
    if items == [] {
      GetsNothing(u, subs[u], names);
      SameGets(map[u := subs[u]], subs, u, subs[u], [], names);
    } else {
      var front, last := items[..|items| - 1], items[|items| - 1];
      CleanItemsPrefix(items, front, names);
      assert CleanItem(front, last, names);
      FoldKnows(subs, front, names);
      FoldDelivers(subs, front, names, u);
      var cs := FoldItems(Opened(subs, []), front);
      assert items == front + [last];
      match last
      case Heard(msg) =>
        KnowsMore(cs, front, msg, names);
        GetsText(cs.subs, msg, u, subs[u], front, names);
      case Carried(value) =>
        TakesOne(cs, front, names, value.0, value.1);
        GetsValue(cs.subs, cs.announced[value.0], value, u, subs[u], front, names);
      case Next(w) => GetsNext(cs.subs, w, u, subs[u], front, names);
    }
  }

  // ---- what a user is handed ----

  /** The oldest values, in order: those of the inbox that the user took since. */
  ghost predicate HandedOldest(start: InternalSub, now: InternalSub, handed: seq<MessageData>) {
    && start.taken <= now.taken <= |now.inbox| && start.inbox <= now.inbox && now.data == start.data
    && handed == now.inbox[start.taken..now.taken]
  }

  lemma {:induction false} TellKeepsTaken(subs: map<i32, InternalSub>, topic: Topic, data: MessageData, u: i32)
    ensures u in Tell(subs, topic, data) ==>
      && u in subs && var a, b := subs[u], Tell(subs, topic, data)[u];
      b.data == a.data && b.taken == a.taken && (b.inbox == a.inbox || b.inbox == a.inbox + [data])
  {
    hide InternalSub.MatchesTopic;
  }

  lemma {:induction false} ItemHands(cs: ClientState, item: Item, u: i32, start: InternalSub, handed: seq<MessageData>)
    requires u in HandleItem(cs, item).subs
    ensures u in cs.subs
    ensures HandedOldest(start, cs.subs[u], handed) ==> HandedOldest(start, HandleItem(cs, item).subs[u], handed + Handed(cs, item, u))
  {
    hide Tell;
    match item
    case Heard(msg) =>
    case Carried(value) =>
      var id := Truncated(value.0);
      if id >= 0 && id in cs.announced {
        TellKeepsTaken(cs.subs, cs.announced[id],
          MessageData(cs.announced[id].name, value.1.timestamp % 0x1_0000_0000, value.1.value.kind, value.1.value.data), u);
      }
    case Next(w) =>
  }

  /** Over any schedule of arrivals and requests: what the user of a subscription was handed is, in order and once, what went into its
      channel first, from where it stood before up to where it stands now. */
  lemma {:induction false} HandsInOrder(cs: ClientState, items: seq<Item>, u: i32)
    requires u in FoldItems(cs, items).subs
    ensures u in cs.subs
    ensures cs.subs[u].taken <= |cs.subs[u].inbox| ==> HandedOldest(cs.subs[u], FoldItems(cs, items).subs[u], HandedBy(cs, items, u))
  {
    hide HandleItem, Handed, HandedOldest;
    if items == [] {
      if u in cs.subs {
        HandedNothing(cs.subs[u]);
      }
    } else {
      var front, last := items[..|items| - 1], items[|items| - 1];
      if u in cs.subs && u in FoldItems(cs, front).subs {
        ItemHands(FoldItems(cs, front), last, u, cs.subs[u], HandedBy(cs, front, u));
      } else {
        StillThere(FoldItems(cs, front), last, u);
      }
      HandsInOrder(cs, front, u);
    }
  }

  lemma {:induction false} StillThere(cs: ClientState, item: Item, u: i32)
    requires u in HandleItem(cs, item).subs
    ensures u in cs.subs
  {
    ItemHands(cs, item, u, InternalSub(None, 0, [], 0), []);
  }

  lemma {:induction false} HandedNothing(sub: InternalSub)
    ensures sub.taken <= |sub.inbox| ==> HandedOldest(sub, sub, [])
  {}

  // ---- over whole runs ----

  lemma {:induction false} NamesBounded(st: State)
    requires Inv(st)
    ensures |st.tlog.names| == st.counters.topicIdx
  {
    hide Cached, HaveLists, MapNamed, TopicsNamed, ClientInv, IndexInv, SubInv, MailInv;
  }

  /** What arrives through a channel of a run is clean, however far it came and whatever users took meanwhile. */
  lemma {:induction false} ChannelItemsClean(states: seq<State>, ops: seq<Op>, j: nat, c: ClientIdx, items: seq<Item>)
    requires IsRun(states, ops) && j <= |ops| && c in states[j].c.outboxes && Arrivals(items) <= ItemsOf(states[j].c.outboxes[c])
    ensures CleanItems(items, states[j].tlog.names) && |states[j].tlog.names| == states[j].counters.topicIdx
    ensures TopicsNamed(states[j].t.topics, states[j].tlog.names)
  {
    hide Inv, Init, Step, Enabled, Clean, CleanItems, Arrivals, ItemsOf;
    RunInv(states, ops, j);
    ChannelsClean(states[j], c);
    NamesBounded(states[j]);
    LiveName(states[j]);
    CleanPieceByPiece(states[j].c.outboxes[c], states[j].tlog.names);
    CleanItemsPrefix(ItemsOf(states[j].c.outboxes[c]), Arrivals(items), states[j].tlog.names);
    ArrivalsClean(items, states[j].tlog.names);
  }

  /** However far a client came with its channel, in whatever run, and whatever its users received meanwhile: it never met a value
      before the announcement, and resolves each id it was told to the one name that id stands for on the server. */
  lemma {:induction false} NeverUnannouncedYet(states: seq<State>, ops: seq<Op>, j: nat, c: ClientIdx, items: seq<Item>, subs: map<i32, InternalSub>)
    requires IsRun(states, ops) && j <= |ops| && c in states[j].c.outboxes && Arrivals(items) <= ItemsOf(states[j].c.outboxes[c])
    requires states[j].counters.topicIdx <= 0x8000_0000
    ensures var cs := FoldItems(Opened(subs, []), items);
      && cs.errors == []
      && (forall i: nat :: i in cs.announced <==> HeardOf(items, i))
      && (forall i: nat | i in cs.announced :: i < |states[j].tlog.names| && cs.announced[i].name == states[j].tlog.names[i])
      && (forall i: nat | i in cs.announced && i in states[j].t.topics :: cs.announced[i].name == states[j].t.topics[i].name)
  {
    hide Inv, Init, Step, Enabled, FoldItems, HeardOf, CleanItems, Arrivals, ItemsOf;
    ChannelItemsClean(states, ops, j, c, items);
    FoldKnows(subs, items, states[j].tlog.names);
  }

  /** The same for whole messages, any prefix of the channel. */
  lemma {:induction false} NeverUnannounced(states: seq<State>, ops: seq<Op>, j: nat, c: ClientIdx, q: nat, subs: map<i32, InternalSub>)
    requires IsRun(states, ops) && j <= |ops| && c in states[j].c.outboxes && q <= |states[j].c.outboxes[c]|
    requires states[j].counters.topicIdx <= 0x8000_0000
    ensures var ms := states[j].c.outboxes[c][..q];
      var cs := Fold(Opened(subs, []), ms);
      && cs.errors == []
      && (forall i: nat :: i in cs.announced <==> Announced(ms, i))
      && (forall i: nat | i in cs.announced :: i < |states[j].tlog.names| && cs.announced[i].name == states[j].tlog.names[i])
      && (forall i: nat | i in cs.announced && i in states[j].t.topics :: cs.announced[i].name == states[j].t.topics[i].name)
  {
    hide Inv, Init, Step, Enabled, Fold, FoldItems, Announced, HeardOf, Arrivals, ItemsOf;
    var ms := states[j].c.outboxes[c][..q];
    FoldIsItems(Opened(subs, []), ms);
    ItemsArrive(ms);
    ItemsPrefix(states[j].c.outboxes[c], q);
    NeverUnannouncedYet(states, ops, j, c, ItemsOf(ms), subs);
    forall i { HeardInMessages(ms, i); }
  }

  lemma {:induction false} NoNext(items: seq<Item>)
    requires forall k | 0 <= k < |items| :: !items[k].Next?
    ensures Arrivals(items) == items
  {
    if items != [] {
      NoNext(items[..|items| - 1]);
      assert items == items[..|items| - 1] + [items[|items| - 1]];
    }
  }

  lemma {:induction false} NoNextIn(ms: seq<Message>)
    ensures forall k | 0 <= k < |ItemsOf(ms)| :: !ItemsOf(ms)[k].Next?
  {
    if ms != [] {
      NoNextIn(ms[..|ms| - 1]);
    }
  }

  lemma {:induction false} ItemsArrive(ms: seq<Message>)
    ensures Arrivals(ItemsOf(ms)) == ItemsOf(ms)
  {
    hide Arrivals, ItemsOf;
    NoNextIn(ms);
    NoNext(ItemsOf(ms));
  }

  lemma {:induction false} ItemsPrefix(ms: seq<Message>, q: nat)
    requires q <= |ms|
    ensures ItemsOf(ms[..q]) <= ItemsOf(ms)
  {
    hide ItemsIn;
    if q == |ms| {
      assert ms[..q] == ms;
    } else {
      ItemsPrefix(ms[..|ms| - 1], q);
      assert ms[..|ms| - 1][..q] == ms[..q];
    }
  }

  /** However far a client came with its channel, and whenever its users ask for values in between: a user is given, in order, just the
      values of the topics whose server names match, and loses the subscription exactly if at some point more of them were waiting to
      be received than the channel takes. When it asks it is handed the oldest that waits. */
  lemma {:induction false} UserGets(states: seq<State>, ops: seq<Op>, j: nat, c: ClientIdx, items: seq<Item>, subs: map<i32, InternalSub>, u: i32)
    requires IsRun(states, ops) && j <= |ops| && c in states[j].c.outboxes && Arrivals(items) <= ItemsOf(states[j].c.outboxes[c])
    requires states[j].counters.topicIdx <= 0x8000_0000
    requires u in subs && InUse(subs[u])
    ensures var cs, names, sub, queued := FoldItems(Opened(subs, []), items), states[j].tlog.names, subs[u].data.value, |subs[u].inbox| - subs[u].taken;
      && (u in cs.subs <==> Fits(items, u, queued, subs[u].room, sub, names))
      && (u in cs.subs ==>
            && cs.subs[u].inbox == subs[u].inbox + Wanted(items, sub, names)
            && cs.subs[u].taken == subs[u].taken + Asked(items, u, queued, sub, names)
            && cs.subs[u].taken <= |cs.subs[u].inbox|
            && HandedBy(Opened(subs, []), items, u) == cs.subs[u].inbox[subs[u].taken..cs.subs[u].taken]
            && cs.subs[u].room - cs.subs[u].taken == subs[u].room - subs[u].taken - |Wanted(items, sub, names)|)
  {
    hide Inv, Init, Step, Enabled, FoldItems, HandedBy, CleanItems, Wanted, Asked, Fits, Arrivals, ItemsOf;
    ChannelItemsClean(states, ops, j, c, items);
    FoldDelivers(subs, items, states[j].tlog.names, u);
    AskedBound(items, u, |subs[u].inbox| - subs[u].taken, subs[u].data.value, states[j].tlog.names);
    if u in FoldItems(Opened(subs, []), items).subs {
      HandsInOrder(Opened(subs, []), items, u);
    }
  }
}
