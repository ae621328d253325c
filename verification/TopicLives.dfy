/** How long an ordinary topic lives, in runs whose published names contain no `$`. */
module TopicLives {
  import opened Basics
  import opened BiMap
  import opened Protocol
  import opened MetaTopic
  import opened SubValue
  import opened ServerModel
  import opened Invariants
  import opened TopicSteps
  import opened ClientSteps
  import opened Handlers
  import L = Lockstep
  import opened Leaving
  import opened FreeRuns
  import opened Growth
  import opened History

  /** The run publishes ordinary names only. */
  ghost predicate IsFreeRun(states: seq<State>, ops: seq<Op>) {
    IsRun(states, ops) && forall k | 0 <= k < |ops| :: FreeOp(ops[k])
  }

  /** Operation `k` publishes a name that is not in use. */
  predicate Creates(states: seq<State>, ops: seq<Op>, k: nat) {
    k < |ops| < |states| && ops[k].OpPublish? && ops[k].client in states[k].c.clients && ops[k].topic.name !in states[k].t.topicMap
  }

  /** The number of releases a topic created by publishing `p` survives: one more than the last. */
  function Lives(p: PublishTopic): nat {
    if FromPublishTopic(p).HasImplicitPublisher() then 2 else 1
  }

  lemma {:induction false} FreeState(states: seq<State>, ops: seq<Op>, k: nat)
    requires IsFreeRun(states, ops) && k <= |ops|
    ensures Inv(states[k]) && L.FreeInv(states[k])
  {
    hide Inv, L.FreeInv, Init, Step, Enabled, FreeOp;
    RunFree(states, ops, k);
  }

  /** The parts of publishing after the topic exists do not touch the topic log. */
  lemma {:induction false} PublishLog(st: State, p: PublishTopic, c: ClientIdx)
    ensures PublishStep(st, p, c).st.tlog == AddTopic(st, FromPublishTopic(p)).st.tlog
    ensures PublishStep(st, p, c).st.t == AddTopic(st, FromPublishTopic(p)).st.t
    ensures PublishStep(st, p, c).st.p.pubCount == AddTopic(st, FromPublishTopic(p)).st.p.pubCount
  {
    hide AddTopic, Told, Respond, AnnounceOf, Interested, SubsUntouched, SeatsUntouched;
  }

  /** A new ordinary topic starts with its full count and no release. */
  lemma {:induction false} PublishNew(st: State, p: PublishTopic, c: ClientIdx)
    requires Inv(st) && L.FreeInv(st) && L.Ordinary(p.name) && p.name !in st.t.topicMap
    ensures var r, i := PublishStep(st, p, c).st, st.counters.topicIdx;
      && i < |r.tlog.initial| == |r.tlog.names| && r.tlog.names[i] == p.name && r.tlog.initial[i] == Lives(p)
      && i < |r.tlog.releases| && r.tlog.releases[i] == 0
  {
    PublishLog(st, p, c);
    assert L.InLockstep(st.t.topicMap);
    assert |st.tlog.names| == |st.tlog.initial| == |st.tlog.releases| == st.counters.topicIdx by { hide Cached, HaveLists, MapNamed, ClientInv, IndexInv, SubInv, MailInv; }
    hide Inv, L.FreeInv, PublishStep, PubMeta, SubMeta, L.Ordinary;
    L.AddOrdinaryExact(st, FromPublishTopic(p));
    TrioLog(st, FromPublishTopic(p));
    hide AddTopic, L.Trio;
  }

  lemma {:induction false} TrioLog(st: State, topic: Topic)
    requires |st.tlog.names| == |st.tlog.initial| == |st.tlog.releases| == st.counters.topicIdx
    ensures var r, i := L.Trio(st, topic), st.counters.topicIdx;
      && i < |r.tlog.initial| == |r.tlog.names| && r.tlog.names[i] == topic.name && r.tlog.initial[i] == (if topic.HasImplicitPublisher() then 2 else 1)
      && i < |r.tlog.releases| && r.tlog.releases[i] == 0 && st.tlog.releases <= r.tlog.releases
  {
    hide SubsUntouched, SeatsUntouched, PubMeta, SubMeta;
  }

  /** The state right after the topic was created. */
  lemma {:induction false} Created(states: seq<State>, ops: seq<Op>, k: nat)
    requires IsFreeRun(states, ops) && Creates(states, ops, k)
    ensures var i, st := states[k].counters.topicIdx, states[k + 1];
      && i < st.counters.topicIdx && i < |st.tlog.initial| == |st.tlog.names|
      && L.Ordinary(st.tlog.names[i]) && st.tlog.initial[i] == Lives(ops[k].topic) && ReleasesOf(st, i) == 0
  {
    assert L.Ordinary(ops[k].topic.name) by { assert FreeOp(ops[k]); hide Step, Enabled, Init, Inv, L.Ordinary; }
    hide Inv, L.FreeInv, Step, Enabled, Init, L.Ordinary;
    FreeState(states, ops, k);
    FreeState(states, ops, k + 1);
    PublishAt(states, ops, k);
    hide IsFreeRun;
    PublishNew(states[k], ops[k].topic, ops[k].client);
    CountersAreSizes(states[k + 1]);
  }

  lemma {:induction false} CountersAreSizes(st: State)
    requires Inv(st)
    ensures st.counters.topicIdx == |st.tlog.names|
  {
    hide Cached, HaveLists, MapNamed, ClientInv, IndexInv, SubInv, MailInv;
  }

  /** A topic is live until its last release, and its count says how many it still survives. However many clients
      publish it and whatever its properties become later, the number is fixed when it is created. */
  lemma {:induction false} Lifetime(states: seq<State>, ops: seq<Op>, k: nat, j: nat)
    requires IsFreeRun(states, ops) && Creates(states, ops, k) && k < j <= |ops|
    ensures var i, g := states[k].counters.topicIdx, states[j].tlog;
      && i < |g.releases|
      && (i in states[j].t.topics <==> g.releases[i] < Lives(ops[k].topic))
      && (i in states[j].t.topics ==> i in states[j].p.pubCount && states[j].p.pubCount[i] == Lives(ops[k].topic) - g.releases[i])
  {
    var i := states[k].counters.topicIdx;
    hide Inv, L.FreeInv, Step, Enabled, Init, L.Ordinary;
    Created(states, ops, k);
    FreeState(states, ops, j);
    RunLater(states, ops, k + 1, j);
    hide IsFreeRun, Later;
    SameInitial(states[k + 1], states[j], i);
    LifetimeAt(states[j], i);
  }

  lemma {:induction false} PublishAt(states: seq<State>, ops: seq<Op>, k: nat)
    requires IsRun(states, ops) && k < |ops| && ops[k].OpPublish?
    ensures states[k + 1] == PublishStep(states[k], ops[k].topic, ops[k].client).st
  {
    hide PublishStep, Init;
  }

  lemma {:induction false} SameInitial(a: State, b: State, i: TopicIdx)
    requires Later(a, b) && i < |a.tlog.initial| == |a.tlog.names|
    ensures i < |b.tlog.initial| && b.tlog.initial[i] == a.tlog.initial[i] && i < |b.tlog.names| && b.tlog.names[i] == a.tlog.names[i]
  {
    hide TopicsLater, SubsLater, ClientsLater, CountersLater;
  }

  lemma {:induction false} LifetimeAt(st: State, i: TopicIdx)
    requires L.FreeCore(st) && i < |st.tlog.names| && L.Ordinary(st.tlog.names[i])
    ensures i < |st.tlog.releases| && i < |st.tlog.initial|
    ensures i in st.t.topics <==> st.tlog.releases[i] < st.tlog.initial[i]
    ensures i in st.t.topics ==> i in st.p.pubCount && st.p.pubCount[i] == st.tlog.initial[i] - st.tlog.releases[i]
  {
    hide L.Shaped, L.InLockstep, L.Alive, L.Serviced, L.KeptNames, L.Plain, L.Ordinary;
  }

  // ---- what releases a topic ----

  function ReleasesOf(st: State, i: TopicIdx): nat {
    if i < |st.tlog.releases| then st.tlog.releases[i] else 0
  }

  /** The pubuids of topic `i` an operation gives up: for a disconnect, those the loop over publishers gets through. */
  function Claims(st: State, op: Op, i: TopicIdx): nat {
    match op
    case OpUnpublish(p, c) => if c in st.c.clients && p in st.c.clients[c].pubs.fwd && st.c.clients[c].pubs.fwd[p] == i then 1 else 0
    case OpDisconnect(identity, order) =>
      var pubs := PubsOf(st.c, identity);
      Count(pubs, order[..Reached(st, pubs, order)], i)
    case _ => 0
  }

  /** All pubuids of topic `i` an operation means to give up. */
  function Given(st: State, op: Op, i: TopicIdx): nat {
    if op.OpDisconnect? then |UidsOf(PubsOf(st.c, op.identity), i)| else Claims(st, op, i)
  }

  /** A leaving client holds no topic more often than the topic can be released. */
  ghost predicate LeavesCleanly(st: State, op: Op) {
    op.OpDisconnect? ==> forall i | i in st.p.pubCount :: |UidsOf(PubsOf(st.c, op.identity), i)| <= LimitOf(st, i)
  }

  lemma {:induction false} ReleaseCounts(st: State, i: TopicIdx, k: TopicIdx)
    requires i in st.p.pubCount && k < |st.tlog.releases|
    ensures var r := Release(st, i);
      && r.st.p.pubCount.Keys == st.p.pubCount.Keys && |r.st.tlog.releases| == |st.tlog.releases|
      && r.st.tlog.names == st.tlog.names && r.st.tlog.initial == st.tlog.initial
      && ReleasesOf(st, k) <= ReleasesOf(r.st, k) <= ReleasesOf(st, k) + (if i == k then 1 else 0)
      && (r.out.Ok? ==> ReleasesOf(r.st, k) == ReleasesOf(st, k) + if i == k then 1 else 0)
  {
    hide Removed, SubsUntouched, SeatsUntouched;
  }

  /** The loop releases each topic once for every pubuid of it, as far as it comes. */
  lemma {:induction false} LoopReleases(st: State, pubs: map<PubUID, TopicIdx>, order: seq<PubUID>, i: TopicIdx)
    requires forall p | p in order :: p in pubs
    requires i in st.p.pubCount && i < |st.tlog.releases|
    ensures var r := ReleaseAll(st, pubs, order);
      && r.st.p.pubCount.Keys == st.p.pubCount.Keys && |r.st.tlog.releases| == |st.tlog.releases|
      && r.st.tlog.names == st.tlog.names && r.st.tlog.initial == st.tlog.initial
      && ReleasesOf(st, i) <= ReleasesOf(r.st, i) <= ReleasesOf(st, i) + Count(pubs, order, i)
      && (r.out.Ok? ==> ReleasesOf(r.st, i) == ReleasesOf(st, i) + Count(pubs, order, i))
  {
    hide Release, ReleasesOf, SubsUntouched, SeatsUntouched;
    if order != [] {
      var front, last := order[..|order| - 1], order[|order| - 1];
      assert forall p | p in front :: p in order;
      assert last in order;
      LoopReleases(st, pubs, front, i);
      var before := ReleaseAll(st, pubs, front);
      if pubs[last] in before.st.p.pubCount {
        ReleaseCounts(before.st, pubs[last], i);
      }
    }
  }

  lemma {:induction false} DropMetatopicsLog(st: State, idx: ClientIdx)
    ensures DropMetatopics(st, idx).st.tlog == st.tlog
  {
    hide Removed, SubsUntouched, SeatsUntouched;
  }

  lemma {:induction false} CleanReached(st: State, pubs: map<PubUID, TopicIdx>, order: seq<PubUID>)
    requires forall k | k in st.p.pubCount :: Count(pubs, order, k) <= LimitOf(st, k)
    ensures Reached(st, pubs, order) == |order|
  {
    if order != [] {
      var front, last := order[..|order| - 1], order[|order| - 1];
      forall k | k in st.p.pubCount ensures Count(pubs, front, k) <= LimitOf(st, k) {
        assert Count(pubs, front, k) <= Count(pubs, order, k);
      }
      CleanReached(st, pubs, front);
      hide LimitOf;
    }
  }

  lemma {:induction false} CleanOrder(st: State, pubs: map<PubUID, TopicIdx>, order: seq<PubUID>)
    requires Enumerates(order, pubs.Keys)
    ensures (forall i | i in st.p.pubCount :: |UidsOf(pubs, i)| <= LimitOf(st, i)) ==> Reached(st, pubs, order) == |order|
  {
    hide UidsOf, LimitOf, Reached, Count;
    if forall i | i in st.p.pubCount :: |UidsOf(pubs, i)| <= LimitOf(st, i) {
      forall k | k in st.p.pubCount ensures Count(pubs, order, k) <= LimitOf(st, k) {
        CountIsSize(pubs, order, k);
      }
      CleanReached(st, pubs, order);
    }
  }

  /** What the loop does to a live topic, whether or not it comes to its end: as far as it comes it takes one from the count for
      every pubuid of the topic, and the topic lives on exactly if that leaves something. */
  lemma {:induction false} LoopOutlived(st: State, pubs: map<PubUID, TopicIdx>, order: seq<PubUID>, i: TopicIdx)
    requires Inv(st) && L.FreeCore(st) && PlainPubs(pubs, st.tlog.names) && forall p | p in order :: p in pubs
    requires i in st.t.topics && i in st.p.pubCount && i < |st.tlog.names| == |st.tlog.releases| && L.Ordinary(st.tlog.names[i])
    ensures var r, n := ReleaseAll(st, pubs, order).st, Count(pubs, order[..Reached(st, pubs, order)], i);
      && r.tlog.names == st.tlog.names && r.tlog.initial == st.tlog.initial && |r.tlog.releases| == |st.tlog.releases|
      && (ReleasesOf(r, i) == ReleasesOf(st, i) + n || (n >= st.p.pubCount[i] && ReleasesOf(r, i) == ReleasesOf(st, i) + n + 1))
      && (Reached(st, pubs, order) == |order| ==> ReleasesOf(r, i) == ReleasesOf(st, i) + n)
      && ReleasesOf(r, i) <= ReleasesOf(st, i) + Count(pubs, order, i)
  {
    hide Inv, L.FreeCore, FitsOrder, L.Ordinary, ReleasesOf, Reached, Release, ReleaseAll;
    var m := Reached(st, pubs, order);
    LoopReaches(st, pubs, order);
    assert forall p | p in order[..m] :: p in order;
    LoopReleases(st, pubs, order[..m], i);
    LoopReleases(st, pubs, order, i);
    if m == |order| {
      assert order[..m] == order;
    } else {
      var mid, k := ReleaseAll(st, pubs, order[..m]).st, pubs[order[m]];
      assert order[m] in order;
      ReleaseAllInv(st, pubs, order[..m]);
      L.ReleaseAllFree(st, pubs, order[..m]);
      FailedStep(st, pubs, order, m);
      L.ReleaseFree(mid, k);
      ReleaseCounts(mid, k, i);
      if i == k {
        CountSpent(st, mid, i);
      }
    }
  }

  lemma {:induction false} FailedStep(st: State, pubs: map<PubUID, TopicIdx>, order: seq<PubUID>, m: nat)
    requires m < |order| && (forall p | p in order :: p in pubs)
    requires ReleaseAll(st, pubs, order[..m]).out.Ok? && ReleaseAll(st, pubs, order[..m + 1]).out.Err?
    ensures var mid, k := ReleaseAll(st, pubs, order[..m]).st, pubs[order[m]];
      k in mid.p.pubCount && ReleaseAll(st, pubs, order[..m + 1]) == Release(mid, k) && Release(mid, k).out.Err?
  {
    hide Release, SubsUntouched, SeatsUntouched;
    assert order[..m + 1][..m] == order[..m];
  }

  /** A topic that died took as many releases as its count said. */
  lemma {:induction false} CountSpent(a: State, b: State, i: TopicIdx)
    requires L.FreeCore(a) && L.FreeCore(b) && i in a.t.topics && i !in b.t.topics && i in a.p.pubCount
    requires i < |a.tlog.names| && L.Ordinary(a.tlog.names[i]) && b.tlog.names == a.tlog.names && b.tlog.initial == a.tlog.initial
    ensures ReleasesOf(b, i) >= ReleasesOf(a, i) + a.p.pubCount[i]
  {
    hide L.FreeCore, L.Ordinary;
    LifetimeAt(a, i);
    LifetimeAt(b, i);
  }

  lemma {:induction false} ReachedFrame(a: State, b: State, pubs: map<PubUID, TopicIdx>, order: seq<PubUID>)
    requires b.t == a.t && b.p == a.p && b.overflowChecks == a.overflowChecks
    ensures Reached(a, pubs, order) == Reached(b, pubs, order)
  {
    hide Removable, Limit;
    if order != [] {
      ReachedFrame(a, b, pubs, order[..|order| - 1]);
    }
  }

  lemma {:induction false} UnregisterTables(st: State, identity: Identity)
    requires identity in st.c.clientMap
    ensures var r := Unregister(st, identity);
      r.t == st.t && r.p == st.p && r.tlog == st.tlog && r.overflowChecks == st.overflowChecks
  {}

  lemma {:induction false} DisconnectReleases(st: State, identity: Identity, order: seq<PubUID>, i: TopicIdx)
    requires Inv(st) && L.FreeInv(st) && Enumerates(order, PubsOf(st.c, identity).Keys) && identity in st.c.clientMap
    requires i in st.t.topics && i in st.p.pubCount && i < |st.tlog.names| == |st.tlog.releases| && L.Ordinary(st.tlog.names[i])
    ensures var st', n := DisconnectStep(st, identity, order).st, Claims(st, OpDisconnect(identity, order), i);
      && st'.tlog.names == st.tlog.names && st'.tlog.initial == st.tlog.initial && |st'.tlog.releases| == |st.tlog.releases|
      && (ReleasesOf(st', i) == ReleasesOf(st, i) + n || (n >= st.p.pubCount[i] && ReleasesOf(st', i) == ReleasesOf(st, i) + n + 1))
      && (LeavesCleanly(st, OpDisconnect(identity, order)) ==> ReleasesOf(st', i) == ReleasesOf(st, i) + n)
      && ReleasesOf(st', i) <= ReleasesOf(st, i) + Given(st, OpDisconnect(identity, order), i)
  {
    hide Inv, L.FreeInv, L.FreeCore, DisconnectStep, Unregister, PubsOf, L.Ordinary, Enumerates, ReleasesOf, ReleaseAll, DropMetatopics, Reached, Count, SubsUntouched, SeatsUntouched;
    var pubs, st1, idx := PubsOf(st.c, identity), Unregister(st, identity), st.c.clientMap[identity];
    DisconnectAsLeave(st, identity, order);
    ReachedFrame(st, st1, pubs, order);
    CleanOrder(st, pubs, order);
    CountIsSize(pubs, order, i);
    hide UidsOf, LimitOf;
    LoopOutlived(st1, pubs, order, i);
    LeaveLog(st1, pubs, order, idx);
    ByLog(st, st1, i);
    ByLog(ReleaseAll(st1, pubs, order).st, DisconnectStep(st, identity, order).st, i);
  }

  /** A disconnect is the loop and what follows it, on a state with the client out of the tables. */
  lemma {:induction false} DisconnectAsLeave(st: State, identity: Identity, order: seq<PubUID>)
    requires Inv(st) && L.FreeInv(st) && Enumerates(order, PubsOf(st.c, identity).Keys) && identity in st.c.clientMap
    ensures var pubs, st1 := PubsOf(st.c, identity), Unregister(st, identity);
      && (forall p | p in order :: p in pubs) && PlainPubs(pubs, st.tlog.names)
      && Inv(st1) && L.FreeCore(st1)
      && st1.t == st.t && st1.p == st.p && st1.tlog == st.tlog && st1.overflowChecks == st.overflowChecks
      && DisconnectStep(st, identity, order) == L.Leave(st1, pubs, order, st.c.clientMap[identity])
  {
    hide Inv, L.FreeCore, DisconnectStep, L.Leave, Unregister, PubsOf, L.Ordinary;
    L.PubsArePlain(st, identity, order);
    PlainByOrder(PubsOf(st.c, identity), order, st.tlog.names);
    L.MappedConnected(st, identity);
    L.DisconnectShape(st, identity, order);
    hide Enumerates, PlainPubs;
    L.UnregisterFree(st, identity);
    UnregisterTables(st, identity);
  }

  lemma {:induction false} LeaveLog(st: State, pubs: map<PubUID, TopicIdx>, order: seq<PubUID>, idx: ClientIdx)
    requires forall p | p in order :: p in pubs
    ensures L.Leave(st, pubs, order, idx).st.tlog == ReleaseAll(st, pubs, order).st.tlog
  {
    hide ReleaseAll, DropMetatopics, SubsUntouched, SeatsUntouched;
    DropMetatopicsLog(ReleaseAll(st, pubs, order).st, idx);
  }

  lemma {:induction false} ByLog(a: State, b: State, i: TopicIdx)
    ensures a.tlog == b.tlog ==> ReleasesOf(a, i) == ReleasesOf(b, i)
  {}

  lemma {:induction false} PlainByOrder(pubs: map<PubUID, TopicIdx>, order: seq<PubUID>, names: seq<string>)
    requires Enumerates(order, pubs.Keys)
    requires forall p | p in order :: p in pubs && pubs[p] < |names| && L.Ordinary(names[pubs[p]])
    ensures PlainPubs(pubs, names)
  {
    hide L.Ordinary;
    forall p | p in pubs ensures pubs[p] < |names| && L.Ordinary(names[pubs[p]]) {
      assert p in order;
    }
  }

  lemma {:induction false} UnpublishReleases(st: State, p: PubUID, c: ClientIdx, i: TopicIdx)
    requires Inv(st) && L.FreeInv(st) && i in st.t.topics && L.Ordinary(st.t.topics[i].name)
    ensures ReleasesOf(UnpublishStep(st, p, c).st, i) == ReleasesOf(st, i) + Claims(st, OpUnpublish(p, c), i)
  {
    hide Inv, L.FreeInv, L.Ordinary, ReleasesOf;
    LiveCounted(st, i);
    if c in st.c.clients && p in st.c.clients[c].pubs.fwd {
      UnpublishOf(st, p, c, i);
    }
    hide Release, DropCount, UpdatePublishers, UnbindPub, SubsUntouched, SeatsUntouched;
  }

  lemma {:induction false} LiveCounted(st: State, i: TopicIdx)
    requires Inv(st) && L.FreeInv(st) && i in st.t.topics && L.Ordinary(st.t.topics[i].name)
    ensures i in st.p.pubCount && st.p.pubCount[i] > 0 && i < |st.tlog.names| == |st.tlog.releases| && L.Ordinary(st.tlog.names[i])
  {
    assert i < |st.tlog.names| && st.tlog.names[i] == st.t.topics[i].name by { hide Cached, HaveLists, MapNamed, ClientInv, IndexInv, SubInv, MailInv; }
    LifetimeAt(st, i);
    assert |st.tlog.names| == |st.tlog.releases| by { hide Cached, HaveLists, MapNamed, ClientInv, IndexInv, SubInv, MailInv; }
    hide Inv, L.FreeInv;
  }

  lemma {:induction false} UnpublishTail(st: State, c: ClientIdx, entry: ClientPublisherMTE, i: TopicIdx)
    ensures UpdatePublishers(DropCount(st, i), c, entry, false).st.tlog == st.tlog
  {}

  /** The release of an unpublish, and what follows it. */
  lemma {:induction false} UnpublishParts(st: State, p: PubUID, c: ClientIdx)
    requires c in st.c.clients && p in st.c.clients[c].pubs.fwd
    ensures var k, st1 := st.c.clients[c].pubs.fwd[p], UnbindPub(st, c, p);
      && st1.p == st.p && st1.tlog == st.tlog
      && UnpublishStep(st, p, c).st.tlog == if k in st.p.pubCount then Release(st1, k).st.tlog else st.tlog
  {
    var k, st1 := st.c.clients[c].pubs.fwd[p], UnbindPub(st, c, p);
    L.UnbindPubFrame(st, c, p);
    if k in st.p.pubCount {
      UnpublishTail(Release(st1, k).st, c, ClientPublisherMTE(if k in st.t.topics then st.t.topics[k].name else "", p), k);
    }
    hide Release, DropCount, UpdatePublishers, UnbindPub, SubsUntouched, SeatsUntouched;
  }

  lemma {:induction false} LiveReleaseOk(st: State, p: PubUID, c: ClientIdx)
    requires Inv(st) && L.FreeInv(st) && c in st.c.clients && p in st.c.clients[c].pubs.fwd
    requires var i := st.c.clients[c].pubs.fwd[p]; i in st.p.pubCount && i < |st.tlog.names| && i in st.t.topics && L.Ordinary(st.tlog.names[i])
    ensures UnbindPub(st, c, p).p == st.p && Release(UnbindPub(st, c, p), st.c.clients[c].pubs.fwd[p]).out.Ok?
  {
    hide Inv, L.FreeCore, Release, L.Ordinary, SubsUntouched, SeatsUntouched;
    L.UnbindPubFrame(st, c, p);
    hide UnbindPub;
    UnbindPubInv(st, c, p);
    L.UnbindPubFree(st, c, p);
    L.ReleaseFree(UnbindPub(st, c, p), st.c.clients[c].pubs.fwd[p]);
  }

  lemma {:induction false} UnpublishOf(st: State, p: PubUID, c: ClientIdx, i: TopicIdx)
    requires Inv(st) && L.FreeInv(st) && c in st.c.clients && p in st.c.clients[c].pubs.fwd
    requires i in st.p.pubCount && i < |st.tlog.releases| == |st.tlog.names| && i in st.t.topics && L.Ordinary(st.tlog.names[i])
    ensures ReleasesOf(UnpublishStep(st, p, c).st, i) == ReleasesOf(st, i) + if st.c.clients[c].pubs.fwd[p] == i then 1 else 0
  {
    var k, st1 := st.c.clients[c].pubs.fwd[p], UnbindPub(st, c, p);
    UnpublishParts(st, p, c);
    hide *;
    if k in st.p.pubCount {
      ReleaseCounts(st1, k, i);
      if k == i {
        LiveReleaseOk(st, p, c);
      }
      ReleasesByLog(Release(st1, k).st, UnpublishStep(st, p, c).st, i);
    } else {
      ReleasesByLog(st, UnpublishStep(st, p, c).st, i);
    }
    ReleasesByLog(st, st1, i);
  }

  lemma {:induction false} ReleasesByLog(a: State, b: State, i: TopicIdx)
    requires a.tlog == b.tlog
    ensures ReleasesOf(a, i) == ReleasesOf(b, i)
  {}

  /** Publishing, connecting and everything that leaves publishers alone releases no topic. */
  lemma {:induction false} AddTopicReleases(st: State, topic: Topic)
    ensures st.tlog.releases <= AddTopic(st, topic).st.tlog.releases
  {
    hide SubsUntouched, SeatsUntouched, AddMeta, PubMeta, SubMeta;
    if topic.name !in st.t.topicMap && '$' !in topic.name {
      MetaNames(topic.name);
      var st1 := Alloc(st, topic);
      AddMetaReleases(st1, PubMeta(topic.name));
      AddMetaReleases(AddMeta(st1, PubMeta(topic.name)).st, SubMeta(topic.name));
    }
  }

  lemma {:induction false} AddMetaReleases(st: State, name: string)
    requires '$' in name
    ensures st.tlog.releases <= AddMeta(st, name).st.tlog.releases
  {
    hide SubsUntouched, SeatsUntouched, AnnounceTopic;
    var r := AddTopic(st, NewMeta(name));
    if r.out.Ok? {
      AnnounceLog(r.st, r.out.value, None);
    }
  }

  lemma {:induction false} ConnectReleases(st: State, identity: Identity)
    ensures st.tlog.releases <= ConnectStep(st, identity).st.tlog.releases
  {
    hide SubsUntouched, SeatsUntouched, AddTopic, RenamedIdentity, ClientPub, ClientSub;
    if identity !in st.c.clientMap {
      var renamed := RenamedIdentity(st.c.clients, identity);
      var st1 := Register(st, renamed);
      assert st1.tlog == st.tlog;
      hide Register;
      AddTopicReleases(st1, NewMeta(ClientPub(renamed.name)));
      AddTopicReleases(AddTopic(st1, NewMeta(ClientPub(renamed.name))).st, NewMeta(ClientSub(renamed.name)));
    }
  }

  lemma {:induction false} QuietStep(st: State, op: Op)
    requires Enabled(st, op) && !op.OpUnpublish? && !op.OpDisconnect?
    ensures st.tlog.releases <= Step(st, op).tlog.releases
  {
    hide SameNames, ConnectStep, PublishStep, SubscribeStep, UnsubscribeStep, SetPropertiesStep, SetValueStep, SendOutStep, SubsUntouched, SeatsUntouched;
    match op
    case OpConnect(identity) => ConnectReleases(st, identity);
    case OpPublish(topic, c) =>
      PublishLog(st, topic, c);
      AddTopicReleases(st, FromPublishTopic(topic));
    case OpSubscribe(sub, c, order, now) => SubscribeLog(st, sub, c, order, now);
    case OpUnsubscribe(subuid, c) => UnsubscribeLog(st, subuid, c);
    case OpSetProperties(name, update) => SetPropertiesLog(st, name, update);
    case OpSetValue(value, k) => SetValueReleases(st, value, k);
    case OpClientValue(c, pubuid, value) =>
      if c in st.c.clients && pubuid in st.c.clients[c].pubs.fwd {
        SetValueReleases(st, value, st.c.clients[c].pubs.fwd[pubuid]);
      }
    case OpSendOut(picks, now) => SendOutFrame(st, picks, now);
  }

  lemma {:induction false} SetValueReleases(st: State, v: TimestampedValue, i: TopicIdx)
    ensures SetValueStep(st, v, i).st.tlog.releases == st.tlog.releases
  {
    hide Queued, Append, Replace;
  }

  lemma {:induction false} ReleasesGrow(a: State, b: State, i: TopicIdx)
    requires a.tlog.releases <= b.tlog.releases && i < |a.tlog.releases|
    ensures ReleasesOf(b, i) == ReleasesOf(a, i)
  {}

  /** The releases logged for a live topic are the pubuids of it given up, and perhaps one more of the dead topic. */
  lemma {:induction false} StepLogs(st: State, op: Op, i: TopicIdx)
    requires Inv(st) && L.FreeInv(st) && Enabled(st, op) && i in st.t.topics && L.Ordinary(st.t.topics[i].name)
    requires i in st.p.pubCount
    ensures var st', n := Step(st, op), Claims(st, op, i);
      && (ReleasesOf(st', i) == ReleasesOf(st, i) + n || (n >= st.p.pubCount[i] && ReleasesOf(st', i) == ReleasesOf(st, i) + n + 1))
      && (LeavesCleanly(st, op) ==> ReleasesOf(st', i) == ReleasesOf(st, i) + n)
      && ReleasesOf(st', i) <= ReleasesOf(st, i) + Given(st, op, i)
  {
    hide Inv, L.FreeCore, LeavesCleanly, UidsOf, ReleasesOf, DisconnectStep, UnpublishStep, L.Ordinary, SubsUntouched, SeatsUntouched, ReleaseAll, Unregister, PubsOf;
    LiveCounted(st, i);
    if op.OpDisconnect? {
      if op.identity in st.c.clientMap {
        DisconnectReleases(st, op.identity, op.pubOrder, i);
      } else {
        UnknownIdentity(st, op.identity, op.pubOrder, i);
      }
    } else if op.OpUnpublish? {
      UnpublishReleases(st, op.pubuid, op.client, i);
    } else {
      QuietStep(st, op);
      ReleasesGrow(st, Step(st, op), i);
      hide Step, Enabled;
    }
  }

  lemma {:induction false} UnknownIdentity(st: State, identity: Identity, order: seq<PubUID>, i: TopicIdx)
    requires Enumerates(order, PubsOf(st.c, identity).Keys) && identity !in st.c.clientMap
    ensures Claims(st, OpDisconnect(identity, order), i) == 0
    ensures DisconnectStep(st, identity, order).st == st
  {
    assert PubsOf(st.c, identity) == map[];
    SomeElement(order);
  }

  lemma {:induction false} SomeElement<T>(order: seq<T>)
    ensures order == [] || exists x :: x in order
  {
    assert order == [] || order[0] in order;
  }

  /** The logs of a step that matter for lifetimes only grow. */
  lemma {:induction false} SameFounding(st: State, op: Op, i: TopicIdx)
    requires Inv(st) && Enabled(st, op) && i < |st.tlog.initial| == |st.tlog.names|
    ensures var st' := Step(st, op);
      i < |st'.tlog.initial| && st'.tlog.initial[i] == st.tlog.initial[i] && i < |st'.tlog.names| && st'.tlog.names[i] == st.tlog.names[i]
  {
    hide Inv, Step, Enabled, Later;
    StepLater(st, op);
    SameInitial(st, Step(st, op), i);
  }

  /** What any operation does to a live topic. Its count goes down by the pubuids of it that are given up, it lives on exactly if
      that leaves something, and where every client leaves cleanly the releases are those pubuids and no others. */
  lemma {:induction false} StepReleases(st: State, op: Op, i: TopicIdx)
    requires Inv(st) && L.FreeInv(st) && Enabled(st, op) && FreeOp(op) && i in st.t.topics && L.Ordinary(st.t.topics[i].name)
    ensures i in st.p.pubCount
    ensures var st', n := Step(st, op), Claims(st, op, i);
      && (i in st'.t.topics <==> n < st.p.pubCount[i])
      && (i in st'.t.topics ==> i in st'.p.pubCount && st'.p.pubCount[i] == st.p.pubCount[i] - n && ReleasesOf(st', i) == ReleasesOf(st, i) + n)
      && (LeavesCleanly(st, op) ==> ReleasesOf(st', i) == ReleasesOf(st, i) + n)
      && ReleasesOf(st, i) <= ReleasesOf(st', i) <= ReleasesOf(st, i) + Given(st, op, i)
  {
    hide Inv, L.FreeCore, Step, Enabled, FreeOp, Claims, Given, LeavesCleanly, L.Ordinary;
    LiveCounted(st, i);
    StepLogs(st, op, i);
    StepFree(st, op);
    FoundingSizes(st);
    SameFounding(st, op, i);
    LifetimeAt(st, i);
    LifetimeAt(Step(st, op), i);
  }

  lemma {:induction false} FoundingSizes(st: State)
    requires Inv(st)
    ensures |st.tlog.names| == |st.tlog.initial| == |st.tlog.releases|
  {
    hide Cached, HaveLists, MapNamed, TopicsNamed, OwnNames, ClientInv, IndexInv, SubInv, MailInv;
  }

  /** A client that leaves cleanly gives up every pubuid it has. */
  lemma {:induction false} CleanClaims(st: State, identity: Identity, order: seq<PubUID>, i: TopicIdx)
    requires Enumerates(order, PubsOf(st.c, identity).Keys)
    requires LeavesCleanly(st, OpDisconnect(identity, order))
    ensures Claims(st, OpDisconnect(identity, order), i) == |UidsOf(PubsOf(st.c, identity), i)|
  {
    hide PubsOf, UidsOf, LimitOf, Reached, Enumerates, Count;
    var pubs := PubsOf(st.c, identity);
    CountIsSize(pubs, order, i);
    CleanOrder(st, pubs, order);
    assert order[..|order|] == order;
  }

  // ---- the whole life of a topic ----

  function ClaimsIn(states: seq<State>, ops: seq<Op>, i: TopicIdx, lo: nat, hi: nat): nat
    requires |states| == |ops| + 1 && lo <= hi <= |ops|
    decreases hi
  {
    if lo == hi then 0 else ClaimsIn(states, ops, i, lo, hi - 1) + Claims(states[hi - 1], ops[hi - 1], i)
  }

  lemma {:induction false} StepAt(states: seq<State>, ops: seq<Op>, k: nat)
    requires IsRun(states, ops) && k < |ops|
    ensures Enabled(states[k], ops[k]) && states[k + 1] == Step(states[k], ops[k])
  {
    hide Step, Enabled, Init;
  }

  lemma {:induction false} NamedAt(states: seq<State>, ops: seq<Op>, k: nat, j: nat)
    requires IsFreeRun(states, ops) && Creates(states, ops, k) && k < j <= |ops|
    ensures var i := states[k].counters.topicIdx; i in states[j].t.topics ==> L.Ordinary(states[j].t.topics[i].name)
  {
    var i := states[k].counters.topicIdx;
    hide Inv, L.FreeInv, Step, Enabled, Init, L.Ordinary;
    Created(states, ops, k);
    FreeState(states, ops, j);
    RunLater(states, ops, k + 1, j);
    hide IsFreeRun, Later;
    SameInitial(states[k + 1], states[j], i);
    LiveIsNamed(states[j], i);
  }

  lemma {:induction false} LiveIsNamed(st: State, i: TopicIdx)
    requires Inv(st)
    ensures i in st.t.topics ==> i < |st.tlog.names| && st.t.topics[i].name == st.tlog.names[i]
  {
    hide Cached, HaveLists, MapNamed, ClientInv, IndexInv, SubInv, MailInv;
  }

  lemma {:induction false} ClaimedAt(states: seq<State>, ops: seq<Op>, k: nat, m: nat)
    requires IsFreeRun(states, ops) && Creates(states, ops, k) && k < m < |ops|
    requires states[k].counters.topicIdx in states[m].t.topics
    ensures var i, n := states[k].counters.topicIdx, Claims(states[m], ops[m], states[k].counters.topicIdx);
      && i in states[m].p.pubCount
      && (i in states[m + 1].t.topics <==> n < states[m].p.pubCount[i])
      && (i in states[m + 1].t.topics ==> ReleasesOf(states[m + 1], i) == ReleasesOf(states[m], i) + n)
  {
    hide Inv, L.FreeInv, Step, Enabled, Init, L.Ordinary, Claims, ReleasesOf;
    NamedAt(states, ops, k, m);
    FreeState(states, ops, m);
    StepAt(states, ops, m);
    assert FreeOp(ops[m]);
    hide IsFreeRun, Creates, FreeOp;
    StepReleases(states[m], ops[m], states[k].counters.topicIdx);
  }

  /** Counted by operations alone: a topic is live exactly as long as fewer pubuids of it were given up than it survives,
      and its count is the difference. */
  lemma {:induction false} LifeByClaims(states: seq<State>, ops: seq<Op>, k: nat, j: nat)
    requires IsFreeRun(states, ops) && Creates(states, ops, k) && k < j <= |ops|
    ensures var i, n := states[k].counters.topicIdx, ClaimsIn(states, ops, states[k].counters.topicIdx, k + 1, j);
      && (i in states[j].t.topics <==> n < Lives(ops[k].topic))
      && (i in states[j].t.topics ==> i in states[j].p.pubCount && states[j].p.pubCount[i] == Lives(ops[k].topic) - n)
      && (i in states[j].t.topics ==> ReleasesOf(states[j], i) == n)
    decreases j
  {
    hide IsRun, FreeOp, L.Ordinary, Claims, Lives;
    Lifetime(states, ops, k, j);
    if j == k + 1 {
      Created(states, ops, k);
    } else {
      LifeByClaims(states, ops, k, j - 1);
      Lifetime(states, ops, k, j - 1);
      if states[k].counters.topicIdx in states[j - 1].t.topics {
        ClaimedAt(states, ops, k, j - 1);
      } else {
        StaysDead(states, ops, k, j);
      }
    }
  }

  lemma {:induction false} StaysDead(states: seq<State>, ops: seq<Op>, k: nat, j: nat)
    requires IsFreeRun(states, ops) && Creates(states, ops, k) && k + 1 < j <= |ops| && states[k].counters.topicIdx !in states[j - 1].t.topics
    ensures states[k].counters.topicIdx !in states[j].t.topics
  {
    hide Inv, Step, Enabled, Init;
    Created(states, ops, k);
    RunLater(states, ops, k + 1, j - 1);
    RunLater(states, ops, j - 1, j);
    hide L.Ordinary, LogLater, SubsLater, ClientsLater, Lives;
  }

  // ---- where every client leaves cleanly ----

  /** No disconnect among these operations is of a client that holds a topic more often than it can be released. */
  ghost predicate AllLeaveCleanly(states: seq<State>, ops: seq<Op>, lo: nat, hi: nat)
    requires hi <= |ops| < |states|
  {
    forall m | lo <= m < hi :: LeavesCleanly(states[m], ops[m])
  }

  /** The pubuids of topic `i` that operations give up: one for an unpublish, for a disconnect all that the client has. */
  function GivenIn(states: seq<State>, ops: seq<Op>, i: TopicIdx, lo: nat, hi: nat): nat
    requires |states| == |ops| + 1 && lo <= hi <= |ops|
    decreases hi
  {
    if lo == hi then 0 else GivenIn(states, ops, i, lo, hi - 1) + Given(states[hi - 1], ops[hi - 1], i)
  }

  lemma {:induction false} ClaimsAreGiven(st: State, op: Op, i: TopicIdx)
    requires Enabled(st, op) && LeavesCleanly(st, op)
    ensures Claims(st, op, i) == Given(st, op, i)
  {
    hide LeavesCleanly, PubsOf, UidsOf, Reached, Count;
    if op.OpDisconnect? {
      CleanClaims(st, op.identity, op.pubOrder, i);
    }
  }

  lemma {:induction false} ClaimsInAreGiven(states: seq<State>, ops: seq<Op>, i: TopicIdx, lo: nat, hi: nat)
    requires IsRun(states, ops) && lo <= hi <= |ops| && AllLeaveCleanly(states, ops, lo, hi)
    ensures ClaimsIn(states, ops, i, lo, hi) == GivenIn(states, ops, i, lo, hi)
    decreases hi
  {
    hide Init, Step, Enabled, Claims, Given, LeavesCleanly;
    if lo < hi {
      ClaimsInAreGiven(states, ops, i, lo, hi - 1);
      StepAt(states, ops, hi - 1);
      ClaimsAreGiven(states[hi - 1], ops[hi - 1], i);
    }
  }

  /** There the life of a topic is counted by the pubuids its publishers hold when they give them up. */
  lemma {:induction false} LifeByPubuids(states: seq<State>, ops: seq<Op>, k: nat, j: nat)
    requires IsFreeRun(states, ops) && Creates(states, ops, k) && k < j <= |ops| && AllLeaveCleanly(states, ops, k + 1, j)
    ensures var i, n := states[k].counters.topicIdx, GivenIn(states, ops, states[k].counters.topicIdx, k + 1, j);
      && (i in states[j].t.topics <==> n < Lives(ops[k].topic))
      && (i in states[j].t.topics ==> i in states[j].p.pubCount && states[j].p.pubCount[i] == Lives(ops[k].topic) - n)
  {
    hide Init, Step, Enabled, FreeOp, Lives, ClaimsIn, GivenIn, AllLeaveCleanly;
    LifeByClaims(states, ops, k, j);
    ClaimsInAreGiven(states, ops, states[k].counters.topicIdx, k + 1, j);
  }
}
