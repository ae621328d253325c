/** From `set_value` on the server to the channel of a user: every accepted value, once and in order. */
module EndToEnd {
  import opened Basics
  import opened Protocol
  import opened SubValue
  import opened ServerModel
  import opened Invariants
  import opened Handlers
  import opened Growth
  import opened History
  import opened Delivery
  import opened Mailing
  import opened Channels
  import opened ClientModel
  import opened ClientFold

  // ---- what a user sees of a topic ----

  function ShownAll(name: string, vs: seq<TimestampedValue>): seq<MessageData> {
    seq(|vs|, k requires 0 <= k < |vs| => Shown(name, vs[k]))
  }

  function ShownEach(name: string, values: seq<(TopicIdx, TimestampedValue)>): seq<MessageData> {
    seq(|values|, k requires 0 <= k < |values| => Shown(name, values[k].1))
  }

  /** The part of an inbox that came under this name. */
  function About(inbox: seq<MessageData>, name: string): seq<MessageData> {
    if inbox == [] then []
    else
      var last := inbox[|inbox| - 1];
      About(inbox[..|inbox| - 1], name) + if last.topicName == name then [last] else []
  }

  lemma {:induction false} AboutAppend(a: seq<MessageData>, b: seq<MessageData>, name: string)
    ensures About(a + b, name) == About(a, name) + About(b, name)
  {
    if b == [] {
      assert a + b == a;
    } else {
      AboutAppend(a, b[..|b| - 1], name);
      assert (a + b)[..|a + b| - 1] == a + b[..|b| - 1];
    }
  }

  lemma {:induction false} ShownAppend(name: string, a: seq<TimestampedValue>, b: seq<TimestampedValue>)
    ensures ShownAll(name, a + b) == ShownAll(name, a) + ShownAll(name, b)
  {}

  // ---- the values that arrive ----

  function CarriedOf(items: seq<Item>): seq<(TopicIdx, TimestampedValue)> {
    if items == [] then []
    else
      var last := items[|items| - 1];
      CarriedOf(items[..|items| - 1]) + if last.Carried? then [last.value] else []
  }

  /** The values of all ids that were allocated for a name. */
  function Under(values: seq<(TopicIdx, TimestampedValue)>, names: seq<string>, name: string): seq<(TopicIdx, TimestampedValue)> {
    if values == [] then []
    else
      var last := values[|values| - 1];
      Under(values[..|values| - 1], names, name) + if last.0 < |names| && names[last.0] == name then [last] else []
  }

  lemma {:induction false} CarriedAppend(items: seq<Item>, more: seq<Item>)
    ensures CarriedOf(items + more) == CarriedOf(items) + CarriedOf(more)
  {
    if more == [] {
      assert items + more == items;
    } else {
      CarriedAppend(items, more[..|more| - 1]);
      assert (items + more)[..|items + more| - 1] == items + more[..|more| - 1];
    }
  }

  lemma {:induction false} CarriedArrivals(items: seq<Item>)
    ensures CarriedOf(Arrivals(items)) == CarriedOf(items)
  {
    if items != [] {
      var front, last := items[..|items| - 1], items[|items| - 1];
      CarriedArrivals(front);
      assert Arrivals(front) + [] == Arrivals(front) && CarriedOf(front) + [] == CarriedOf(front);
      if !last.Next? {
        assert (Arrivals(front) + [last])[..|Arrivals(front)|] == Arrivals(front);
      }
    }
  }

  lemma {:induction false} CarriedTexts(msgs: seq<NTMessage>)
    ensures CarriedOf(ItemsIn(Text(msgs))) == []
  {
    if msgs != [] {
      CarriedTexts(msgs[..|msgs| - 1]);
      assert ItemsIn(Text(msgs))[..|msgs| - 1] == ItemsIn(Text(msgs[..|msgs| - 1]));
    }
  }

  lemma {:induction false} CarriedValues(values: seq<(TopicIdx, TimestampedValue)>)
    ensures CarriedOf(ItemsIn(Binary(values))) == values
  {
    if values != [] {
      CarriedValues(values[..|values| - 1]);
      assert ItemsIn(Binary(values))[..|values| - 1] == ItemsIn(Binary(values[..|values| - 1]));
    }
  }

  lemma {:induction false} CarriedSent(ms: seq<Message>, i: TopicIdx)
    ensures ValuesOf(CarriedOf(ItemsOf(ms)), i) == SentIn(ms, i)
  {
    hide ValuesOf, ItemsIn, CarriedOf;
    NoneCarried(i);
    if ms != [] {
      var front, last := ms[..|ms| - 1], ms[|ms| - 1];
      CarriedSent(front, i);
      CarriedAppend(ItemsOf(front), ItemsIn(last));
      ValuesOfAppend(CarriedOf(ItemsOf(front)), CarriedOf(ItemsIn(last)), i);
      match last
      case Text(msgs) => CarriedTexts(msgs);
      case Binary(values) => CarriedValues(values);
    }
  }

  lemma {:induction false} NoneCarried(i: TopicIdx)
    ensures CarriedOf([]) == [] && ValuesOf([], i) == []
  {}

  lemma {:induction false} UnderValues(values: seq<(TopicIdx, TimestampedValue)>, names: seq<string>, i: TopicIdx)
    requires i < |names|
    ensures ValuesOf(Under(values, names, names[i]), i) == ValuesOf(values, i)
  {
    if values != [] {
      var front, last := values[..|values| - 1], values[|values| - 1];
      UnderValues(front, names, i);
      assert Under(front, names, names[i]) + [] == Under(front, names, names[i]) && ValuesOf(front, i) + [] == ValuesOf(front, i);
      if last.0 < |names| && names[last.0] == names[i] {
        assert (Under(front, names, names[i]) + [last])[..|Under(front, names, names[i])|] == Under(front, names, names[i]);
      }
    }
  }

  lemma {:induction false} UnderNamed(values: seq<(TopicIdx, TimestampedValue)>, names: seq<string>, name: string)
    ensures forall v | v in Under(values, names, name) :: v.0 < |names| && names[v.0] == name
  {
    if values != [] {
      UnderNamed(values[..|values| - 1], names, name);
    }
  }

  lemma {:induction false} AboutOne(value: (TopicIdx, TimestampedValue), sub: Subscription, names: seq<string>, name: string)
    requires sub.CaresAbout(name)
    ensures About(WantedOne(value, sub, names), name) == if value.0 < |names| && names[value.0] == name then [Shown(name, value.1)] else []
  {
    hide Subscription.CaresAbout;
    var wanted := WantedOne(value, sub, names);
    if wanted != [] {
      assert wanted[..0] == [] && About([], name) == [];
    }
  }

  /** Of what a subscription wants, the part under a name it matches is every value of the ids of that name. */
  lemma {:induction false} AboutWanted(items: seq<Item>, sub: Subscription, names: seq<string>, name: string)
    requires sub.CaresAbout(name)
    ensures About(Wanted(items, sub, names), name) == ShownEach(name, Under(CarriedOf(items), names, name))
  {
    hide Subscription.CaresAbout, WantedOne, About, Shown;
    if items == [] {
      NothingSeen(names, name);
    } else {
      var front, last := items[..|items| - 1], items[|items| - 1];
      AboutWanted(front, sub, names, name);
      NothingSeen(names, name);
      AboutAppend(Wanted(front, sub, names), if last.Carried? then WantedOne(last.value, sub, names) else [], name);
      if last.Carried? {
        AboutOne(last.value, sub, names, name);
        assert (CarriedOf(front) + [last.value])[..|CarriedOf(front)|] == CarriedOf(front);
      } else {
        assert CarriedOf(items) == CarriedOf(front);
      }
    }
  }

  lemma {:induction false} NothingSeen(names: seq<string>, name: string)
    ensures About([], name) == [] && ShownEach(name, []) == [] && Under([], names, name) == [] && CarriedOf([]) == []
  {}

  // ---- from server to user ----

  lemma {:induction false} ListedCares(states: seq<State>, ops: seq<Op>, k: nat, j: nat, i: TopicIdx)
    requires IsRun(states, ops) && Subscribes(states, ops, k) && k < j <= |ops| && Listed(states[k + 1].t, states[k].counters.subIdx, i)
    ensures i < |states[j].tlog.names| && ops[k].sub.CaresAbout(states[j].tlog.names[i])
  {
    hide Inv, Init, Step, Enabled, Listed, Subscription.CaresAbout, DrainedOf;
    BirthFacts(states, ops, k);
    RunInv(states, ops, k + 1);
    ListedNames(states[k + 1], states[k].counters.subIdx, i);
    RunLater(states, ops, k + 1, j);
    LaterNames(states[k + 1], states[j]);
    hide Later;
  }

  lemma {:induction false} ListedNames(st: State, s: SubIdx, i: TopicIdx)
    requires Inv(st) && s in st.s.subscriptions && s in st.log.births && i in st.log.births[s].listed
    ensures i < |st.tlog.names| && st.s.subscriptions[s].0.CaresAbout(st.tlog.names[i])
  {
    hide TopicInv, OwnNames, ClientInv, SubInv, MailInv, BirthsOk, ListsExact, MatchExact, Subscription.CaresAbout;
  }

  lemma {:induction false} LaterNames(a: State, b: State)
    requires Later(a, b)
    ensures a.tlog.names <= b.tlog.names && forall c | c in a.c.outboxes :: c in b.c.outboxes
  {
    hide TopicsLater, SubsLater, CountersLater;
  }

  lemma {:induction false} OutboxStays(states: seq<State>, ops: seq<Op>, k: nat, j: nat, c: ClientIdx)
    requires IsRun(states, ops) && k <= j <= |ops| && c in states[k].c.clients && c != SERVER_CLIENT_IDX
    ensures c in states[j].c.outboxes
  {
    hide Inv, Init, Step, Enabled;
    HasOutbox(states, ops, k, c);
    RunLater(states, ops, k, j);
    LaterNames(states[k], states[j]);
    hide Later;
  }

  /** What a user finds under a name its subscription matches, once the whole channel arrived, whatever it received meanwhile: the values
      of all ids that were ever allocated for the name, each of them with just what the operations of the run sent for it, namely the
      cached values that subscribes of the client found and what passes took for its subscriptions, in order. */
  lemma {:induction false} InboxHistory(states: seq<State>, ops: seq<Op>, j: nat, c: ClientIdx, items: seq<Item>, subs: map<i32, InternalSub>, u: i32, name: string)
    requires IsRun(states, ops) && j <= |ops| && c in states[j].c.outboxes && Arrivals(items) == ItemsOf(states[j].c.outboxes[c])
    requires states[j].counters.topicIdx <= 0x8000_0000
    requires u in subs && InUse(subs[u]) && subs[u].data.value.CaresAbout(name)
    requires u in FoldItems(Opened(subs, []), items).subs
    ensures var cs, names, values := FoldItems(Opened(subs, []), items), states[j].tlog.names, Under(CarriedOf(items), states[j].tlog.names, name);
      && About(cs.subs[u].inbox, name) == About(subs[u].inbox, name) + ShownEach(name, values)
      && (forall v | v in values :: v.0 < |names| && names[v.0] == name)
      && (forall i | 0 <= i < |names| && names[i] == name :: ValuesOf(values, i) == SentBy(states, ops, c, i, j))
  {
    hide Inv, Init, Step, Enabled, Subscription.CaresAbout, FoldItems, Wanted, Asked, Fits, CarriedOf, Under, About, ShownEach, ValuesOf, SentIn, SentBy, Arrivals, ItemsOf;
    var names := states[j].tlog.names;
    UserGets(states, ops, j, c, items, subs, u);
    AboutAppend(subs[u].inbox, Wanted(items, subs[u].data.value, names), name);
    AboutWanted(items, subs[u].data.value, names, name);
    UnderNamed(CarriedOf(items), names, name);
    CarriedArrivals(items);
    forall i | 0 <= i < |names| && names[i] == name ensures ValuesOf(Under(CarriedOf(items), names, name), i) == SentBy(states, ops, c, i, j) {
      UnderValues(CarriedOf(items), names, i);
      CarriedSent(states[j].c.outboxes[c], i);
      ChannelHistory(states, ops, c, i, j);
    }
  }

  /** No other id was ever allocated for this name. */
  predicate OnlyId(names: seq<string>, i: TopicIdx) {
    i < |names| && forall k | 0 <= k < |names| && names[k] == names[i] :: k == i
  }

  lemma {:induction false} OneIdShown(values: seq<(TopicIdx, TimestampedValue)>, i: TopicIdx, name: string)
    requires forall v | v in values :: v.0 == i
    ensures ShownEach(name, values) == ShownAll(name, ValuesOf(values, i))
  {
    hide Shown;
    if values != [] {
      var front, last := values[..|values| - 1], values[|values| - 1];
      assert last in values && forall v | v in front :: v in values;
      OneIdShown(front, i, name);
      ShownAppend(name, ValuesOf(front, i), [last.1]);
      assert ValuesOf(values, i) == ValuesOf(front, i) + [last.1] && last.0 == i;
      assert ShownEach(name, values) == ShownEach(name, front) + [Shown(name, last.1)];
      assert ShownAll(name, [last.1]) == [Shown(name, last.1)];
    }
  }

  lemma {:induction false} Cancel(p: seq<MessageData>, a: seq<MessageData>, b: seq<MessageData>)
    requires p + a == p + b
    ensures a == b
  {
    assert (p + a)[|p|..] == a && (p + b)[|p|..] == b;
  }

  /** The inbox from where the user stood: what it was handed since, then what it was not. */
  lemma {:induction false} HandedThenRest(start: InternalSub, now: InternalSub, name: string)
    requires start.taken <= |start.inbox| && start.inbox <= now.inbox && start.taken <= now.taken <= |now.inbox|
    ensures About(start.inbox, name) == About(start.inbox[..start.taken], name) + About(start.inbox[start.taken..], name)
    ensures About(now.inbox, name) ==
      About(start.inbox[..start.taken], name) + (About(now.inbox[start.taken..now.taken], name) + About(now.inbox[now.taken..], name))
  {
    hide About;
    var past, handed, rest := start.inbox[..start.taken], now.inbox[start.taken..now.taken], now.inbox[now.taken..];
    assert start.inbox == past + start.inbox[start.taken..] && now.inbox == past + (handed + rest);
    AboutAppend(past, start.inbox[start.taken..], name);
    AboutAppend(past, handed + rest, name);
    AboutAppend(handed, rest, name);
  }

  lemma {:induction false} HandedAndWaiting(start: InternalSub, now: InternalSub, name: string, handed: seq<MessageData>, waiting: seq<MessageData>, all: seq<MessageData>)
    requires start.taken <= |start.inbox| && HandedOldest(start, now, handed)
    requires About(now.inbox, name) + waiting == About(start.inbox, name) + all
    ensures now.taken <= |now.inbox|
    ensures About(handed, name) + About(now.inbox[now.taken..], name) + waiting == About(start.inbox[start.taken..], name) + all
  {
    hide About;
    HandedThenRest(start, now, name);
    var past := About(start.inbox[..start.taken], name);
    var a, b, c := About(handed, name), About(now.inbox[now.taken..], name), About(start.inbox[start.taken..], name);
    assert past + (a + b + waiting) == past + (a + b) + waiting;
    assert past + (c + all) == past + c + all;
    Cancel(past, a + b + waiting, c + all);
  }

  /** A client sent an `All` subscription that was listed for a topic, and no other of its subscriptions ever was. The user who holds
      it and did not let its channel run over finds under the topic's name the cached value of that time and then, in order and once,
      every value the topic accepted since, up to those that still wait on the server. What it was handed, then what still waits in its
      channel, then what waits on the server, is just that. The name was allocated one id only. */
  lemma {:induction false} AcceptedReachesUser(states: seq<State>, ops: seq<Op>, k: nat, j: nat, c: ClientIdx, i: TopicIdx, items: seq<Item>, subs: map<i32, InternalSub>, u: i32)
    requires IsRun(states, ops) && Subscribes(states, ops, k) && k < j <= |ops| && ops[k].client == c != SERVER_CLIENT_IDX
    requires OnlyListed(states, ops, k, j, c, i) && states[k].counters.subIdx in states[j].s.subscriptions
    requires ops[k].sub.WantsAll() && Listed(states[k + 1].t, states[k].counters.subIdx, i)
    requires states[j].counters.topicIdx <= 0x8000_0000 && OnlyId(states[j].tlog.names, i)
    requires u in subs && InUse(subs[u]) && subs[u].data == Some(ops[k].sub)
    ensures c in states[j].c.outboxes && states[k].counters.subIdx in states[j].s.subValues
    ensures var cs, name := FoldItems(Opened(subs, []), items), states[j].tlog.names[i];
      var waiting := states[j].s.subValues[states[k].counters.subIdx].Pending(i);
      Arrivals(items) == ItemsOf(states[j].c.outboxes[c]) && u in cs.subs ==>
        About(cs.subs[u].inbox, name) + ShownAll(name, waiting) ==
          About(subs[u].inbox, name) + ShownAll(name, CachedFor(states[k].t, i) + AcceptedIn(states, ops, i, k + 1, j))
    ensures var cs, name := FoldItems(Opened(subs, []), items), states[j].tlog.names[i];
      var waiting := states[j].s.subValues[states[k].counters.subIdx].Pending(i);
      Arrivals(items) == ItemsOf(states[j].c.outboxes[c]) && u in cs.subs ==>
        && cs.subs[u].taken <= |cs.subs[u].inbox|
        && About(HandedBy(Opened(subs, []), items, u), name) + About(cs.subs[u].inbox[cs.subs[u].taken..], name) + ShownAll(name, waiting) ==
             About(subs[u].inbox[subs[u].taken..], name) + ShownAll(name, CachedFor(states[k].t, i) + AcceptedIn(states, ops, i, k + 1, j))
  {
    hide Inv, Init, Step, Enabled, Listed, CachedFor, AcceptedIn, OnlyListed, Subscription.WantsAll, Subscription.CaresAbout, FoldItems, HandedBy, SentIn, SentBy, ShownAll, ShownEach, About, StoredSubValue.Pending, CarriedOf, Under, Arrivals, ItemsOf, ValuesOf;
    OutboxStays(states, ops, k, j, c);
    AcceptedIsSent(states, ops, k, j, c, i);
    ListedCares(states, ops, k, j, i);
    var names := states[j].tlog.names;
    var name, waiting := names[i], states[j].s.subValues[states[k].counters.subIdx].Pending(i);
    var cs := FoldItems(Opened(subs, []), items);
    if Arrivals(items) == ItemsOf(states[j].c.outboxes[c]) && u in cs.subs {
      InboxHistory(states, ops, j, c, items, subs, u, name);
      var values := Under(CarriedOf(items), names, name);
      OneIdShown(values, i, name);
      ChannelHistory(states, ops, c, i, j);
      hide IsRun, Subscribes, OnlyId;
      var sent := SentTo(states[j].c, c, i);
      ShownAppend(name, sent, waiting);
      assert About(cs.subs[u].inbox, name) + ShownAll(name, waiting) == About(subs[u].inbox, name) + (ShownAll(name, sent) + ShownAll(name, waiting));
      var all := ShownAll(name, CachedFor(states[k].t, i) + AcceptedIn(states, ops, i, k + 1, j));
      HandsInOrder(Opened(subs, []), items, u);
      HandedAndWaiting(subs[u], cs.subs[u], name, HandedBy(Opened(subs, []), items, u), ShownAll(name, waiting), all);
    }
  }
}
