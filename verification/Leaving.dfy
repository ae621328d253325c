/** When a leaving client can release all its topics, and when a disconnect succeeds. */
module Leaving {
  import opened Basics
  import opened BiMap
  import opened Protocol
  import opened SubValue
  import opened ServerModel
  import opened Invariants
  import opened TopicSteps
  import opened ClientSteps
  import opened Handlers
  import opened Lockstep
  import opened ServerLoops

  // ---- one release ----

  /** The topic is live, and the names of its two metatopics are in use. */
  predicate Removable(t: TopicTables, i: TopicIdx) {
    i in t.topics && PubMeta(t.topics[i].name) in t.topicMap && SubMeta(t.topics[i].name) in t.topicMap
  }

  /** Exactly then it can be removed. */
  lemma {:induction false} RemoveSucceedsIff(st: State, i: TopicIdx)
    ensures RemoveTopic(st, i).out.Ok? <==> Removable(st.t, i)
  {
    if i in st.t.topics {
      MetaNames(st.t.topics[i].name);
    }
    hide PubMeta, SubMeta, SubsUntouched, SeatsUntouched;
  }

  /** What a release meets: a count above one, a last publisher of a removable topic, or a zero that wraps around. */
  predicate Releasable(st: State, i: TopicIdx) {
    i in st.p.pubCount ==>
      || st.p.pubCount[i] > 1
      || (st.p.pubCount[i] == 1 && Removable(st.t, i))
      || (st.p.pubCount[i] == 0 && !st.overflowChecks)
  }

  lemma {:induction false} ReleaseSucceedsIff(st: State, i: TopicIdx)
    requires i in st.p.pubCount
    ensures Release(st, i).out.Ok? <==> Releasable(st, i)
  {
    hide Removable, RemoveTopic, SubsUntouched, SeatsUntouched;
    var d := Decrement(st, i);
    assert d.out.Ok? ==> d.st.t == st.t;
    RemoveSucceedsIff(d.st, i);
  }

  // ---- how many releases a topic can take ----

  /** How often the count of a topic can be decremented in a row without an error. With overflow checks a topic takes as many
      decrements as its count says, unless the last of them has to remove what cannot be removed. Without them a zero wraps
      around, and the error comes when the count reaches zero and there is nothing to remove any more. */
  function Limit(checks: bool, count: u16, removable: bool): nat {
    if removable then
      if checks then count else (if count == 0 then 0x1_0000 else count) + 0xFFFF
    else
      if count > 0 then count - 1 else if checks then 0 else 0xFFFF
  }

  function LimitOf(st: State, i: TopicIdx): nat
    requires i in st.p.pubCount
  {
    Limit(st.overflowChecks, st.p.pubCount[i], Removable(st.t, i))
  }

  /** Removing an ordinary topic leaves the others as removable as they were. */
  lemma {:induction false} RemovedKeepsOthers(t: TopicTables, g: TopicLog, n: nat, i: TopicIdx, k: TopicIdx)
    requires TopicInv(t, g, n) && OwnNames(t.topics, t.topicMap) && Removable(t, i) && k != i
    requires i < |g.names| && k < |g.names| && Ordinary(g.names[i]) && Ordinary(g.names[k])
    ensures Removable(Removed(t, i).0, k) <==> Removable(t, k)
  {
    hide PubMeta, SubMeta, Cached, HaveLists, IsMeta, IsService;
    var name := t.topics[i].name;
    assert name == g.names[i] && (k in t.topics ==> t.topics[k].name == g.names[k]) by { hide MapNamed; }
    assert g.names[t.topicMap[PubMeta(name)]] == PubMeta(name) && g.names[t.topicMap[SubMeta(name)]] == SubMeta(name) by { hide TopicsNamed; }
    assert k in t.topics ==> g.names[k] != name;
    hide TopicInv, OwnNames, Ordinary;
    MetaNames(name);
    MetaShape(name);
    if k in t.topics {
      MetaDistinct(g.names[k], name);
    }
  }

  lemma {:induction false} RemovedSelf(t: TopicTables, i: TopicIdx)
    ensures !Removable(Removed(t, i).0, i)
  {
    hide PubMeta, SubMeta;
  }

  /** The tables after a successful release: the same, or with the topic removed when it was the last one. */
  lemma {:induction false} ReleaseTables(st: State, i: TopicIdx)
    requires i in st.p.pubCount && Releasable(st, i)
    ensures var r, count := Release(st, i).st, st.p.pubCount[i];
      && r.t == (if count == 1 then Removed(st.t, i).0 else st.t)
      && r.p.pubCount == st.p.pubCount[i := if count == 0 then 0xFFFF else count - 1]
      && r.overflowChecks == st.overflowChecks && r.tlog.names == st.tlog.names
  {
    hide Removable, Removed, Bump;
  }

  /** A successful release takes one from the topic's limit and leaves the limits of other ordinary topics alone. */
  lemma {:induction false} ReleaseTakesOne(st: State, i: TopicIdx, k: TopicIdx)
    requires Inv(st) && i in st.p.pubCount && k in st.p.pubCount && Releasable(st, i)
    requires i < |st.tlog.names| && k < |st.tlog.names| && Ordinary(st.tlog.names[i]) && Ordinary(st.tlog.names[k])
    ensures var r := Release(st, i).st;
      && k in r.p.pubCount && LimitOf(r, k) == LimitOf(st, k) - if i == k then 1 else 0
  {
    ReleaseTables(st, i);
    if st.p.pubCount[i] == 1 {
      RemovedSelf(st.t, i);
      if k != i {
        RemovedKeepsOthers(st.t, st.tlog, st.counters.topicIdx, i, k);
      }
    }
    hide Inv, Release, Removable, Removed, Ordinary, SubsUntouched, SeatsUntouched;
  }

  lemma {:induction false} ReleasableByLimit(st: State, i: TopicIdx)
    requires i in st.p.pubCount
    ensures Releasable(st, i) <==> LimitOf(st, i) > 0
  {
    hide Removable;
  }

  // ---- the loop over a client's publishers ----

  /** How many of these pubuids stand for topic `i`. */
  function Count(pubs: map<PubUID, TopicIdx>, order: seq<PubUID>, i: TopicIdx): nat {
    if order == [] then 0
    else
      var last := order[|order| - 1];
      Count(pubs, order[..|order| - 1], i) + if last in pubs && pubs[last] == i then 1 else 0
  }

  /** The same without an order: the pubuids of topic `i`. */
  function UidsOf(pubs: map<PubUID, TopicIdx>, i: TopicIdx): set<PubUID> {
    set p | p in pubs && pubs[p] == i
  }

  function UidsIn(pubs: map<PubUID, TopicIdx>, order: seq<PubUID>, i: TopicIdx): set<PubUID> {
    set p | p in order && p in pubs && pubs[p] == i
  }

  lemma {:induction false} UidsInMore(pubs: map<PubUID, TopicIdx>, front: seq<PubUID>, last: PubUID, i: TopicIdx)
    requires last !in front
    ensures |UidsIn(pubs, front + [last], i)| == |UidsIn(pubs, front, i)| + if last in pubs && pubs[last] == i then 1 else 0
  {
    var more := if last in pubs && pubs[last] == i then {last} else {};
    assert UidsIn(pubs, front + [last], i) == UidsIn(pubs, front, i) + more;
  }

  lemma {:induction false} CountIn(pubs: map<PubUID, TopicIdx>, order: seq<PubUID>, i: TopicIdx)
    requires Distinct(order)
    ensures Count(pubs, order, i) == |UidsIn(pubs, order, i)|
  {
    if order == [] {
      assert UidsIn(pubs, order, i) == {};
    } else {
      var front, last := order[..|order| - 1], order[|order| - 1];
      CountIn(pubs, front, i);
      assert order == front + [last] && last !in front;
      hide UidsIn, Distinct;
      UidsInMore(pubs, front, last, i);
    }
  }

  lemma {:induction false} CountIsSize(pubs: map<PubUID, TopicIdx>, order: seq<PubUID>, i: TopicIdx)
    requires Enumerates(order, pubs.Keys)
    ensures Count(pubs, order, i) == |UidsOf(pubs, i)|
  {
    CountIn(pubs, order, i);
    assert UidsIn(pubs, order, i) == UidsOf(pubs, i);
    hide Count;
  }

  /** The client publishes ordinary names only. */
  predicate PlainPubs(pubs: map<PubUID, TopicIdx>, names: seq<string>) {
    forall p | p in pubs :: pubs[p] < |names| && Ordinary(names[pubs[p]])
  }

  /** The loop gives up no topic more often than its limit. */
  ghost predicate FitsOrder(st: State, pubs: map<PubUID, TopicIdx>, order: seq<PubUID>) {
    forall i | i in st.p.pubCount :: Count(pubs, order, i) <= LimitOf(st, i)
  }

  /** After the loop every limit is smaller by what was given up. */
  ghost predicate LimitsLess(st: State, st': State, pubs: map<PubUID, TopicIdx>, order: seq<PubUID>) {
    && st'.p.pubCount.Keys == st.p.pubCount.Keys && st'.tlog.names == st.tlog.names
    && (forall i | i in st.p.pubCount && i < |st.tlog.names| && Ordinary(st.tlog.names[i]) ::
          LimitOf(st', i) == LimitOf(st, i) - Count(pubs, order, i))
  }

  lemma {:induction false} ReleasedOnce(st: State, mid: State, k: TopicIdx, pubs: map<PubUID, TopicIdx>, front: seq<PubUID>, last: PubUID)
    requires Inv(mid) && LimitsLess(st, mid, pubs, front) && last in pubs && pubs[last] == k && k in mid.p.pubCount
    requires k < |st.tlog.names| && Ordinary(st.tlog.names[k]) && Releasable(mid, k)
    ensures LimitsLess(st, Release(mid, k).st, pubs, front + [last])
  {
    hide Inv, Release, LimitOf, Releasable, Ordinary, SubsUntouched, SeatsUntouched;
    ReleaseKeys(mid, k);
    assert (front + [last])[..|front|] == front;
    forall i | i in st.p.pubCount && i < |st.tlog.names| && Ordinary(st.tlog.names[i])
      ensures LimitOf(Release(mid, k).st, i) == LimitOf(st, i) - Count(pubs, front + [last], i)
    {
      ReleaseTakesOne(mid, k, i);
    }
  }

  lemma {:induction false} ReleaseKeys(st: State, i: TopicIdx)
    requires i in st.p.pubCount
    ensures var r := Release(st, i).st; r.p.pubCount.Keys == st.p.pubCount.Keys && r.tlog.names == st.tlog.names
  {
    hide Removed, Bump, SubsUntouched, SeatsUntouched;
  }

  lemma {:induction false} NotCounted(st: State, mid: State, pubs: map<PubUID, TopicIdx>, front: seq<PubUID>, last: PubUID)
    requires LimitsLess(st, mid, pubs, front) && last in pubs && pubs[last] !in mid.p.pubCount
    ensures LimitsLess(st, mid, pubs, front + [last])
    ensures FitsOrder(st, pubs, front) <==> FitsOrder(st, pubs, front + [last])
  {
    hide LimitOf, Ordinary;
    assert (front + [last])[..|front|] == front;
    forall i | i in st.p.pubCount ensures Count(pubs, front + [last], i) == Count(pubs, front, i) {}
  }

  lemma {:induction false} FitsMore(st: State, mid: State, pubs: map<PubUID, TopicIdx>, front: seq<PubUID>, last: PubUID)
    requires LimitsLess(st, mid, pubs, front) && FitsOrder(st, pubs, front) && last in pubs && pubs[last] in mid.p.pubCount
    requires pubs[last] < |st.tlog.names| && Ordinary(st.tlog.names[pubs[last]])
    ensures FitsOrder(st, pubs, front + [last]) <==> LimitOf(mid, pubs[last]) > 0
  {
    hide LimitOf, Ordinary;
    assert (front + [last])[..|front|] == front;
    forall i | i in st.p.pubCount ensures Count(pubs, front + [last], i) == Count(pubs, front, i) + if i == pubs[last] then 1 else 0 {}
  }

  lemma {:induction false} FitsPrefix(st: State, pubs: map<PubUID, TopicIdx>, front: seq<PubUID>, last: PubUID)
    requires FitsOrder(st, pubs, front + [last])
    ensures FitsOrder(st, pubs, front)
  {
    hide LimitOf;
    assert (front + [last])[..|front|] == front;
    forall i | i in st.p.pubCount ensures Count(pubs, front, i) <= Count(pubs, front + [last], i) {}
  }

  /** For a client with ordinary topics, in whatever state the rest of the server is, the loop reaches its end exactly if it
      gives up no topic more often than its limit. */
  lemma {:induction false} LoopFinishesIff(st: State, pubs: map<PubUID, TopicIdx>, order: seq<PubUID>)
    requires Inv(st) && PlainPubs(pubs, st.tlog.names) && forall p | p in order :: p in pubs
    ensures ReleaseAll(st, pubs, order).out.Ok? <==> FitsOrder(st, pubs, order)
    ensures ReleaseAll(st, pubs, order).out.Ok? ==> LimitsLess(st, ReleaseAll(st, pubs, order).st, pubs, order)
  {
    hide Inv, Release, Releasable, LimitsLess, FitsOrder, Ordinary, SubsUntouched, SeatsUntouched;
    if order == [] {
      FitsNothing(st, pubs);
    } else {
      var front, last := order[..|order| - 1], order[|order| - 1];
      assert order == front + [last] && last in order;
      LoopFinishesIff(st, pubs, front);
      ReleaseAllInv(st, pubs, front);
      var before := ReleaseAll(st, pubs, front);
      var k := pubs[last];
      if before.out.Err? {
        if FitsOrder(st, pubs, order) {
          FitsPrefix(st, pubs, front, last);
        }
      } else if k !in before.st.p.pubCount {
        NotCounted(st, before.st, pubs, front, last);
      } else {
        FitsMore(st, before.st, pubs, front, last);
        ReleasableByLimit(before.st, k);
        ReleaseSucceedsIff(before.st, k);
        if Releasable(before.st, k) {
          ReleasedOnce(st, before.st, k, pubs, front, last);
        }
      }
    }
  }

  lemma {:induction false} FitsNothing(st: State, pubs: map<PubUID, TopicIdx>)
    ensures FitsOrder(st, pubs, []) && LimitsLess(st, st, pubs, [])
  {
    hide LimitOf, Ordinary;
  }

  // ---- how far the loop comes ----

  /** How many pubuids the loop gets through: all of them, or those before the first that its topic's limit does not cover. */
  function Reached(st: State, pubs: map<PubUID, TopicIdx>, order: seq<PubUID>): (m: nat)
    ensures m <= |order|
  {
    if order == [] then 0
    else
      var front, last := order[..|order| - 1], order[|order| - 1];
      var m := Reached(st, pubs, front);
      if m < |front| then m
      else if last in pubs && pubs[last] in st.p.pubCount && Count(pubs, order, pubs[last]) > LimitOf(st, pubs[last]) then m
      else m + 1
  }

  lemma {:induction false} FitsLast(st: State, pubs: map<PubUID, TopicIdx>, front: seq<PubUID>, last: PubUID)
    requires FitsOrder(st, pubs, front) && last in pubs
    ensures FitsOrder(st, pubs, front + [last]) <==>
      (pubs[last] in st.p.pubCount ==> Count(pubs, front + [last], pubs[last]) <= LimitOf(st, pubs[last]))
  {
    hide LimitOf;
    assert (front + [last])[..|front|] == front;
    forall i | i in st.p.pubCount && i != pubs[last] ensures Count(pubs, front + [last], i) == Count(pubs, front, i) {}
  }

  lemma {:induction false} NothingReleased(st: State, pubs: map<PubUID, TopicIdx>)
    ensures ReleaseAll(st, pubs, []).out.Ok? && FitsOrder(st, pubs, [])
  {
    FitsNothing(st, pubs);
  }

  /** The loop succeeds up to there, and stops with the next one, if there is one. */
  lemma {:induction false} LoopReaches(st: State, pubs: map<PubUID, TopicIdx>, order: seq<PubUID>)
    requires Inv(st) && PlainPubs(pubs, st.tlog.names) && forall p | p in order :: p in pubs
    ensures var m := Reached(st, pubs, order);
      && ReleaseAll(st, pubs, order[..m]).out.Ok?
      && (m == |order| <==> FitsOrder(st, pubs, order))
      && (m < |order| ==> ReleaseAll(st, pubs, order[..m + 1]).out.Err? && ReleaseAll(st, pubs, order) == ReleaseAll(st, pubs, order[..m + 1]))
  {
    hide Inv, FitsOrder, LimitOf, PlainPubs, LimitsLess, ReleaseAll;
    LoopFinishesIff(st, pubs, order);
    if order == [] {
      assert order[..0] == order;
      NothingReleased(st, pubs);
    } else {
      var front, last := order[..|order| - 1], order[|order| - 1];
      assert order == front + [last] && last in order && forall p | p in front :: p in order;
      var m := Reached(st, pubs, front);
      LoopReaches(st, pubs, front);
      if m < |front| {
        assert order[..m] == front[..m] && order[..m + 1] == front[..m + 1];
        ReleaseStuck(st, pubs, order, m + 1);
      } else {
        assert order[..m] == front && front[..m] == front;
        FitsLast(st, pubs, front, last);
        assert order[..m + 1] == order;
      }
      if FitsOrder(st, pubs, order) {
        FitsPrefix(st, pubs, front, last);
      }
    }
  }

  // ---- in runs that publish ordinary names ----

  /** The limit of a topic: its count, or, where zero wraps around, one round more for a live topic, and for a dead one what
      wrapping around left of it. */
  function FreeLimit(checks: bool, live: bool, count: nat): nat {
    if checks then count
    else if live then count + 0xFFFF
    else if count > 0 then count - 1 else 0xFFFF
  }

  /** A live topic can always be removed there, and with overflow checks a dead one has nothing left. */
  lemma {:induction false} FreeLimits(st: State, i: TopicIdx)
    requires FreeCore(st) && i in st.p.pubCount && i < |st.tlog.names| && Ordinary(st.tlog.names[i]) && TopicsNamed(st.t.topics, st.tlog.names)
    ensures LimitOf(st, i) == FreeLimit(st.overflowChecks, i in st.t.topics, st.p.pubCount[i])
  {
    hide FreeCore, Removable, Ordinary;
    CountFacts(st, i);
    if i in st.t.topics {
      LiveRemovable(st, i);
    } else {
      DeadNotRemovable(st.t, i);
    }
  }

  lemma {:induction false} CountFacts(st: State, i: TopicIdx)
    requires FreeCore(st) && i in st.p.pubCount && i < |st.tlog.names| && Ordinary(st.tlog.names[i])
    ensures i in st.t.topics ==> st.p.pubCount[i] > 0
    ensures i !in st.t.topics && st.overflowChecks ==> st.p.pubCount[i] == 0
  {
    hide Shaped, InLockstep, Alive, Serviced, KeptNames, Plain, Ordinary;
  }

  lemma {:induction false} LiveRemovable(st: State, i: TopicIdx)
    requires FreeCore(st) && i in st.t.topics && i < |st.tlog.names| && Ordinary(st.tlog.names[i]) && TopicsNamed(st.t.topics, st.tlog.names)
    ensures Removable(st.t, i)
  {
    hide PubMeta, SubMeta, Shaped, Lifetimes, Serviced, KeptNames, Plain, IsClientPub;
    assert Ordinary(st.t.topics[i].name);
  }

  lemma {:induction false} DeadNotRemovable(t: TopicTables, i: TopicIdx)
    requires i !in t.topics
    ensures !Removable(t, i)
  {}

  /** With overflow checks on, the loop can stop at a zero count only. */
  lemma {:induction false} FreeLoopOverflows(st: State, pubs: map<PubUID, TopicIdx>, order: seq<PubUID>)
    requires Inv(st) && FreeCore(st) && st.overflowChecks && PlainPubs(pubs, st.tlog.names) && forall p | p in order :: p in pubs
    ensures var r := ReleaseAll(st, pubs, order); (r.out.Err? ==> r.out == Err(Overflow)) && r.st.overflowChecks
  {
    hide Inv, FreeCore, Release, Ordinary;
    if order != [] {
      var front, last := order[..|order| - 1], order[|order| - 1];
      assert last in order && forall p | p in front :: p in order;
      FreeLoopOverflows(st, pubs, front);
      ReleaseAllInv(st, pubs, front);
      ReleaseAllFree(st, pubs, front);
      var before := ReleaseAll(st, pubs, front);
      var k := pubs[last];
      if k in before.st.p.pubCount {
        ReleaseFree(before.st, k);
        if k !in before.st.t.topics {
          DeadCount(before.st, k);
          ZeroOverflows(before.st, k);
        }
      }
    }
  }

  lemma {:induction false} ZeroOverflows(st: State, i: TopicIdx)
    requires i in st.p.pubCount && st.p.pubCount[i] == 0 && st.overflowChecks
    ensures Release(st, i) == Result(st, Err(Overflow))
  {
    hide SubsUntouched, SeatsUntouched;
  }

  // ---- in any state, for any client ----

  /** At each pubuid the loop finds a topic it can release. */
  ghost predicate Stages(st: State, pubs: map<PubUID, TopicIdx>, order: seq<PubUID>)
    requires forall p | p in order :: p in pubs
  {
    forall k | 0 <= k < |order| :: Stage(st, pubs, order, k)
  }

  ghost predicate Stage(st: State, pubs: map<PubUID, TopicIdx>, order: seq<PubUID>, k: nat)
    requires k < |order| && forall p | p in order :: p in pubs
  {
    assert forall p | p in order[..k] :: p in order;
    Releasable(ReleaseAll(st, pubs, order[..k]).st, pubs[order[k]])
  }

  lemma {:induction false} StagesIff(st: State, pubs: map<PubUID, TopicIdx>, order: seq<PubUID>)
    requires forall p | p in order :: p in pubs
    ensures ReleaseAll(st, pubs, order).out.Ok? <==> Stages(st, pubs, order)
  {
    hide Release, Releasable, SubsUntouched, SeatsUntouched;
    if order != [] {
      var front, last := order[..|order| - 1], order[|order| - 1];
      assert last in order && forall p | p in front :: p in order;
      StagesIff(st, pubs, front);
      forall k | 0 <= k < |front| ensures Stage(st, pubs, order, k) <==> Stage(st, pubs, front, k) {
        assert order[..k] == front[..k] && order[k] == front[k];
      }
      var before := ReleaseAll(st, pubs, front);
      assert Stage(st, pubs, order, |front|) <==> Releasable(before.st, pubs[last]);
      assert Stages(st, pubs, order) <==> Stages(st, pubs, front) && Stage(st, pubs, order, |front|);
      if pubs[last] in before.st.p.pubCount {
        ReleaseSucceedsIff(before.st, pubs[last]);
      } else {
        NotCountedReleasable(before.st, pubs[last]);
      }
    }
  }

  lemma {:induction false} NotCountedReleasable(st: State, i: TopicIdx)
    requires i !in st.p.pubCount
    ensures Releasable(st, i)
  {}
}
