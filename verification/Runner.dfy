/** src/server/runner.rs: the message parser and the pass that sends pending values, as calls on the server object. */
module Runner {
  import opened Basics
  import opened Protocol
  import opened SubValue
  import M = ServerModel
  import opened Invariants
  import opened ValueSteps
  import opened Handlers
  import History
  import Mailing
  import Registry
  import Stores
  import opened ServerLoops
  import opened Server

  // ---- sequences of operations ----

  /** The operations lead from one state to the other. */
  ghost predicate Executes(a: M.State, ops: seq<M.Op>, b: M.State)
    decreases |ops|
  {
    if ops == [] then a == b
    else
      var last := ops[|ops| - 1];
      exists mid :: Executes(a, ops[..|ops| - 1], mid) && Does(mid, last, b)
  }

  ghost predicate Does(a: M.State, op: M.Op, b: M.State) {
    M.Enabled(a, op) && b == M.Step(a, op)
  }

  lemma {:induction false} ExecutesMore(a: M.State, ops: seq<M.Op>, mid: M.State, op: M.Op)
    requires Executes(a, ops, mid) && M.Enabled(mid, op)
    ensures Executes(a, ops + [op], M.Step(mid, op))
  {
    hide M.Step, M.Enabled;
    assert Does(mid, op, M.Step(mid, op));
    assert (ops + [op])[..|ops|] == ops && (ops + [op])[|ops|] == op;
    hide Does;
    assert Executes(a, (ops + [op])[..|ops + [op]| - 1], mid);
  }

  /** The last operation of a sequence, and the state before it. */
  lemma {:induction false} LastExecuted(a: M.State, ops: seq<M.Op>, b: M.State) returns (mid: M.State)
    requires ops != [] && Executes(a, ops, b)
    ensures Executes(a, ops[..|ops| - 1], mid) && Does(mid, ops[|ops| - 1], b)
  {
    hide Does;
    mid :| Executes(a, ops[..|ops| - 1], mid) && Does(mid, ops[|ops| - 1], b);
  }

  lemma {:induction false} ExecutedNothing(a: M.State, b: M.State)
    requires Executes(a, [], b)
    ensures a == b
  {}

  /** The states lead, by these operations, to `b`. */
  ghost predicate RunTo(states: seq<M.State>, ops: seq<M.Op>, b: M.State) {
    |states| == |ops| + 1 && M.IsRun(states, ops) && states[|ops|] == b
  }

  /** What the object does continues any run that led to its state, so all that holds of runs holds of it. */
  lemma {:induction false} ContinuesRun(states: seq<M.State>, ops: seq<M.Op>, more: seq<M.Op>, a: M.State, b: M.State) returns (all: seq<M.State>)
    requires RunTo(states, ops, a) && Executes(a, more, b)
    ensures RunTo(all, ops + more, b) && states <= all
    decreases |more|
  {
    hide RunTo, Executes, Does;
    if more == [] {
      ExecutedNothing(a, b);
      assert ops + more == ops;
      all := states;
    } else {
      var front, last := more[..|more| - 1], more[|more| - 1];
      var mid := LastExecuted(a, more, b);
      var before := ContinuesRun(states, ops, front, a, mid);
      OneMore(before, ops + front, last, mid, b);
      assert ops + more == ops + front + [last];
      all := before + [b];
    }
  }

  lemma {:induction false} OneMore(states: seq<M.State>, ops: seq<M.Op>, op: M.Op, a: M.State, b: M.State)
    requires RunTo(states, ops, a) && Does(a, op, b)
    ensures RunTo(states + [b], ops + [op], b)
  {
    hide M.Step, M.Enabled, M.Init;
    assert (states + [b])[0] == states[0];
  }

  // ---- messages of a client ----

  predicate IsRequest(n: NTMessage) {
    n.Publish? || n.Unpublish? || n.SetProperties? || n.Subscribe? || n.Unsubscribe? || n.Close?
  }

  /** These are all messages that a client can send; those of a server are none. */
  lemma {:induction false} RequestsMean(n: NTMessage)
    ensures IsRequest(n) <==> !n.Announcement? && !n.UnAnnounce? && !n.Properties?
  {}

  /** The messages the parser acts on; it ignores the others. */
  function Requests(msgs: seq<NTMessage>): seq<NTMessage> {
    if msgs == [] then []
    else
      var last := msgs[|msgs| - 1];
      Requests(msgs[..|msgs| - 1]) + if IsRequest(last) then [last] else []
  }

  /** The operation is what the message of client `c` asks for. */
  predicate Serves(op: M.Op, n: NTMessage, c: ClientIdx) {
    match n
    case Publish(topic) => op == M.OpPublish(topic, c)
    case Unpublish(pubuid) => op == M.OpUnpublish(pubuid, c)
    case SetProperties(name, update) => op == M.OpSetProperties(name, update)
    case Subscribe(sub) => op.OpSubscribe? && op.sub == sub && op.client == c
    case Unsubscribe(subuid) => op == M.OpUnsubscribe(subuid, c)
    case Close(identity) => op.OpDisconnect? && op.identity == identity
    case _ => false
  }

  ghost predicate ServesAll(ops: seq<M.Op>, msgs: seq<NTMessage>, c: ClientIdx) {
    && |ops| == |Requests(msgs)|
    && (forall k | 0 <= k < |ops| :: Serves(ops[k], Requests(msgs)[k], c))
  }

  method Dispatch(server: InnerServer, n: NTMessage, c: ClientIdx, now: nat) returns (ghost op: M.Op)
    requires server.Valid() && IsRequest(n)
    modifies server
    ensures server.Valid()
    ensures Serves(op, n, c) && M.Enabled(old(server.Abs()), op) && server.Abs() == M.Step(old(server.Abs()), op)
  {
    hide Inv, M.PublishStep, M.UnpublishStep, M.SetPropertiesStep, M.SubscribeStep, M.UnsubscribeStep, M.DisconnectStep;
    match n
    case Publish(topic) =>
      var r := server.PublishTopic(topic, c);
      op := M.OpPublish(topic, c);
    case Unpublish(pubuid) =>
      var r := server.UnpublishTopic(pubuid, c);
      op := M.OpUnpublish(pubuid, c);
    case SetProperties(name, update) =>
      var r := server.SetProperties(name, update);
      op := M.OpSetProperties(name, update);
    case Subscribe(sub) =>
      ghost var order;
      var r;
      r, order := server.Subscribe(sub, c, now);
      op := M.OpSubscribe(sub, c, order, now);
    case Unsubscribe(subuid) =>
      var r := server.Unsubscribe(subuid, c);
      op := M.OpUnsubscribe(subuid, c);
    case Close(identity) =>
      ghost var order;
      var r;
      r, order := server.DisconnectClient(identity);
      op := M.OpDisconnect(identity, order);
  }

  /** A text message: one handler call for each request in it, errors are only logged. */
  method ParseText(server: InnerServer, msgs: seq<NTMessage>, c: ClientIdx, now: nat) returns (ghost ops: seq<M.Op>)
    requires server.Valid()
    modifies server
    ensures server.Valid()
    ensures ServesAll(ops, msgs, c) && Executes(old(server.Abs()), ops, server.Abs())
  {
    hide Inv, Executes;
    ops := [];
    ghost var st := server.Abs();
    assert Executes(st, [], st) by { ExecutesNothing(st); }
    for k := 0 to |msgs|
      invariant server.Valid()
      invariant ServesAll(ops, msgs[..k], c) && Executes(st, ops, server.Abs())
    {
      assert msgs[..k + 1][..k] == msgs[..k];
      if IsRequest(msgs[k]) {
        ghost var before := server.Abs();
        ghost var op := Dispatch(server, msgs[k], c, now);
        ExecutesMore(st, ops, before, op);
        ops := ops + [op];
      }
    }
    assert msgs[..|msgs|] == msgs;
  }

  lemma {:induction false} ExecutesNothing(st: M.State)
    ensures Executes(st, [], st)
  {}

  /** A binary message: values under pubuids. */
  method ParseBinary(server: InnerServer, values: seq<(PubUID, TimestampedValue)>, c: ClientIdx) returns (ghost ops: seq<M.Op>)
    requires server.Valid()
    modifies server
    ensures server.Valid()
    ensures |ops| == |values| && forall k | 0 <= k < |ops| :: ops[k] == M.OpClientValue(c, values[k].0, values[k].1)
    ensures Executes(old(server.Abs()), ops, server.Abs())
  {
    hide Inv, Executes, M.SetValueStep;
    ops := [];
    ghost var st := server.Abs();
    assert Executes(st, [], st) by { ExecutesNothing(st); }
    for k := 0 to |values|
      invariant server.Valid() && |ops| == k
      invariant forall j | 0 <= j < k :: ops[j] == M.OpClientValue(c, values[j].0, values[j].1)
      invariant Executes(st, ops, server.Abs())
    {
      ghost var before := server.Abs();
      var (pubuid, v) := values[k];
      if c in server.seats.clients {
        match server.seats.clients[c].pubs.GetByLeft(pubuid)
        case Some(i) => var r := server.SetValue(v, i);
        case None =>
      }
      ExecutesMore(st, ops, before, M.OpClientValue(c, pubuid, v));
      ops := ops + [M.OpClientValue(c, pubuid, v)];
    }
  }

  // ---- sending out ----

  /** Sends what is waiting for one subscription, one message per topic. */
  method SendOne(server: InnerServer, s: SubIdx, now: nat) returns (ghost pick: M.Pick)
    requires server.Valid() && s in server.subs.subscriptions && !server.subs.subscriptions[s].0.TopicsOnly()
    modifies server`subs, server`seats, server`log
    ensures pick.s == s && M.ValidPick(old(server.subs), pick)
    ensures server.Abs() == M.SendSub(old(server.Abs()), pick, now)
  {
    hide Inv, M.Batches, M.Joined, M.Deliver, StoredSubValue.Taken, StoredSubValue.Topics, StoredSubValue.Emptied, StoredSubValue.Pending;
    ghost var st := server.Abs();
    LookupsSucceed(st, s);
    assert s in server.subs.sendTimes;
    var c := server.subs.subscriptions[s].1;
    server.subs := server.subs.(sendTimes := server.subs.sendTimes[s := now]);
    if c !in server.seats.clients {
      ghost var some := SomeOrder(server.subs.subValues[s].Topics());
      pick := M.Pick(s, some);
      return;
    }
    var store := server.subs.subValues[s];
    var taken, left := Stores.TakeValues(store);
    TakenContents(store, taken);
    server.subs := server.subs.(subValues := server.subs.subValues[s := left]);
    server.log := server.log.(drained := server.log.drained[s := M.Joined(GetOr(server.log.drained, s, map[]), taken)]);
    var topics := IterationOrder(taken.Keys);
    pick := M.Pick(s, topics);
    SendBatches(server, c, taken, topics);
  }

  lemma {:induction false} TakenContents(store: StoredSubValue, taken: map<TopicIdx, seq<TimestampedValue>>)
    requires taken.Keys == store.Topics() && forall i | i in taken :: taken[i] == store.Pending(i)
    ensures taken == store.Taken()
  {}

  /** The lookups of a pass find what they look for. */
  lemma {:induction false} LookupsSucceed(st: M.State, s: SubIdx)
    requires Inv(st) && s in st.s.subscriptions
    ensures s in st.s.subValues && s in st.s.sendTimes
    ensures var c := st.s.subscriptions[s].1; c in st.c.clients && st.c.clients[c].hasOutput ==> c in st.c.outboxes
  {
    Registry.SubsAgree(st);
    Mailing.SeatedPart(st);
    hide Inv;
  }

  method SendBatches(server: InnerServer, c: ClientIdx, taken: map<TopicIdx, seq<TimestampedValue>>, topics: seq<TopicIdx>)
    requires c in server.seats.clients && (server.seats.clients[c].hasOutput ==> c in server.seats.outboxes)
    modifies server`seats
    ensures server.seats == M.Deliver(old(server.seats), c, M.Batches(taken, topics))
  {
    ghost var before := server.seats;
    DeliverNothing(before, c);
    hide M.Deliver;
    for k := 0 to |topics|
      invariant server.seats == M.Deliver(before, c, M.Batches(taken, topics[..k])) && server.seats.clients == before.clients
    {
      assert topics[..k + 1][..k] == topics[..k];
      DeliverMore(before, c, M.Batches(taken, topics[..k]), Binary(M.WithId(topics[k], GetOr(taken, topics[k], []))));
      server.Send(c, Binary(M.WithId(topics[k], GetOr(taken, topics[k], []))));
    }
    assert topics[..|topics|] == topics;
  }

  /** The subscriptions a pass visits: the due ones that want values. */
  predicate Wanted(subs: M.SubTables, s: SubIdx, due: set<SubIdx>) {
    s in subs.subscriptions && s in due && !subs.subscriptions[s].0.TopicsOnly()
  }

  /** The passes so far are one operation of the model. */
  ghost predicate PassedOver(st: M.State, picks: seq<M.Pick>, done: seq<SubIdx>, due: set<SubIdx>) {
    && (forall p | p in picks :: M.CanPick(st.s, p) && M.ValidPick(st.s, p))
    && (forall j, k :: 0 <= j < k < |picks| ==> picks[j].s != picks[k].s)
    && (forall s :: History.Picked(picks, s) <==> s in done && Wanted(st.s, s, due))
  }

  lemma {:induction false} PassMore(st: M.State, picks: seq<M.Pick>, done: seq<SubIdx>, due: set<SubIdx>, p: M.Pick)
    requires PassedOver(st, picks, done, due) && M.CanPick(st.s, p) && M.ValidPick(st.s, p) && p.s !in done && Wanted(st.s, p.s, due)
    ensures PassedOver(st, picks + [p], done + [p.s], due)
  {
    var all := picks + [p];
    forall s ensures History.Picked(all, s) <==> History.Picked(picks, s) || s == p.s {
      assert all[|picks|].s == p.s;
      if History.Picked(picks, s) {
        var k :| 0 <= k < |picks| && picks[k].s == s;
        assert all[k].s == s;
      }
    }
    forall k | 0 <= k < |picks| ensures picks[k].s != p.s {
      assert History.Picked(picks, picks[k].s);
    }
    hide M.CanPick, M.ValidPick, History.Picked;
  }

  lemma {:induction false} PassSkip(st: M.State, picks: seq<M.Pick>, done: seq<SubIdx>, due: set<SubIdx>, s: SubIdx)
    requires PassedOver(st, picks, done, due) && !Wanted(st.s, s, due)
    ensures PassedOver(st, picks, done + [s], due)
  {
    hide M.CanPick, M.ValidPick, History.Picked;
  }

  lemma {:induction false} StoreAsBefore(st: M.State, picks: seq<M.Pick>, done: seq<SubIdx>, due: set<SubIdx>, now: nat, p: M.Pick)
    requires PassedOver(st, picks, done, due) && p.s !in done && p.s in st.s.subscriptions && p.s in st.s.subValues
    requires M.ValidPick(M.SendOutStep(st, picks, now).s, p)
    ensures M.CanPick(st.s, p) && M.ValidPick(st.s, p)
  {
    assert !History.Picked(picks, p.s);
    History.SendOutOthers(st, picks, now, p.s);
    hide History.Picked, M.SendOutStep;
  }

  /** One pass of the sending loop, over the subscriptions whose time has come. */
  method SendOut(server: InnerServer, due: set<SubIdx>, now: nat) returns (ghost picks: seq<M.Pick>)
    requires server.Valid()
    modifies server
    ensures server.Valid()
    ensures M.Enabled(old(server.Abs()), M.OpSendOut(picks, now)) && server.Abs() == M.Step(old(server.Abs()), M.OpSendOut(picks, now))
    ensures forall s :: History.Picked(picks, s) <==> Wanted(old(server.subs), s, due)
  {
    hide Inv, M.SendSub, M.ValidPick, M.CanPick, History.Picked, PassedOver, Wanted;
    ghost var st := server.Abs();
    picks := [];
    NothingPassed(st, due);
    var order := IterationOrder(server.subs.subscriptions.Keys);
    for k := 0 to |order|
      invariant PassedOver(st, picks, order[..k], due)
      invariant (forall p | p in picks :: M.CanPick(st.s, p)) && server.Abs() == M.SendOutStep(st, picks, now) && server.Valid()
    {
      var s := order[k];
      ghost var done := order[..k];
      assert order[..k + 1] == done + [s] && s !in done && s in st.s.subscriptions;
      IsWanted(st.s, s, due);
      if server.subs.subscriptions[s].0.TopicsOnly() || s !in due {
        PassSkip(st, picks, done, due, s);
        continue;
      }
      LookupsSucceed(server.Abs(), s);
      ghost var p := SendOne(server, s, now);
      StoreAsBefore(st, picks, done, due, now, p);
      PassMore(st, picks, done, due, p);
      AppendedPass(st, picks, p, now);
      picks := picks + [p];
      StillValid(st, picks, order[..k + 1], due, now);
    }
    assert order[..|order|] == order;
    PassIsEnabled(st, picks, order, due, now);
  }

  lemma {:induction false} IsWanted(subs: M.SubTables, s: SubIdx, due: set<SubIdx>)
    ensures Wanted(subs, s, due) <==> s in subs.subscriptions && s in due && !subs.subscriptions[s].0.TopicsOnly()
  {}

  lemma {:induction false} AppendedPass(st: M.State, picks: seq<M.Pick>, p: M.Pick, now: nat)
    requires M.CanPick(st.s, p) && forall q | q in picks :: M.CanPick(st.s, q)
    ensures M.CanPick(M.SendOutStep(st, picks, now).s, p)
    ensures M.SendOutStep(st, picks + [p], now) == M.SendSub(M.SendOutStep(st, picks, now), p, now)
  {
    assert (picks + [p])[..|picks|] == picks;
    hide M.SendSub;
  }

  lemma {:induction false} StillValid(st: M.State, picks: seq<M.Pick>, done: seq<SubIdx>, due: set<SubIdx>, now: nat)
    requires Inv(st) && PassedOver(st, picks, done, due)
    ensures (forall p | p in picks :: M.CanPick(st.s, p)) && Inv(M.SendOutStep(st, picks, now))
  {
    hide Inv, M.SendOutStep, M.CanPick, M.ValidPick, History.Picked;
    SendOutInv(st, picks, now);
  }

  lemma {:induction false} NothingPassed(st: M.State, due: set<SubIdx>)
    ensures PassedOver(st, [], [], due)
  {
    hide Wanted;
    NothingPicked();
  }

  lemma {:induction false} PassIsEnabled(st: M.State, picks: seq<M.Pick>, order: seq<SubIdx>, due: set<SubIdx>, now: nat)
    requires PassedOver(st, picks, order, due) && Enumerates(order, st.s.subscriptions.Keys)
    ensures M.Enabled(st, M.OpSendOut(picks, now))
    ensures forall s :: History.Picked(picks, s) <==> Wanted(st.s, s, due)
  {
    hide M.CanPick, M.ValidPick, History.Picked;
  }

  lemma {:induction false} NothingPicked()
    ensures forall s :: !History.Picked([], s)
  {}
}
