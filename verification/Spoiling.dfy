/** When the release loop and a disconnect succeed for any client, told by the tables before the call and the order of its pubuids. */
module Spoiling {
  import opened Basics
  import opened BiMap
  import opened Protocol
  import opened ServerModel
  import opened Invariants
  import opened TopicSteps
  import opened Handlers
  import opened Lockstep
  import opened Leaving
  import opened TopicLives
  import opened Disconnects

  // ---- what removing a topic takes ----

  function TakenIds(t: TopicTables, i: TopicIdx): set<TopicIdx>
    requires Removable(t, i)
  {
    {i, t.topicMap[PubMeta(t.topics[i].name)], t.topicMap[SubMeta(t.topics[i].name)]}
  }

  function TakenNames(t: TopicTables, i: TopicIdx): set<string>
    requires Removable(t, i)
  {
    {PubMeta(t.topics[i].name), SubMeta(t.topics[i].name), t.topics[i].name}
  }

  /** Once `i` is removed, `k` is not removable any more. */
  predicate Spoils(t: TopicTables, i: TopicIdx, k: TopicIdx) {
    && Removable(t, i) && Removable(t, k)
    && (k in TakenIds(t, i) || PubMeta(t.topics[k].name) in TakenNames(t, i) || SubMeta(t.topics[k].name) in TakenNames(t, i))
  }

  /** The tables once these topics were removed. */
  ghost predicate Lacks(t: TopicTables, t': TopicTables, out: set<TopicIdx>) {
    && (forall i | i in out :: Removable(t, i))
    && (forall k :: k in t'.topics <==> k in t.topics && forall i | i in out :: k !in TakenIds(t, i))
    && (forall n :: n in t'.topicMap <==> n in t.topicMap && forall i | i in out :: n !in TakenNames(t, i))
    && (forall k | k in t'.topics :: t'.topics[k] == t.topics[k])
    && (forall n | n in t'.topicMap :: t'.topicMap[n] == t.topicMap[n])
  }

  /** Nothing in `out` spoils it. */
  predicate Spared(t: TopicTables, out: set<TopicIdx>, k: TopicIdx) {
    Removable(t, k) && forall i | i in out :: !Spoils(t, i, k)
  }

  lemma {:induction false} RemovableWithout(t: TopicTables, t': TopicTables, out: set<TopicIdx>, k: TopicIdx)
    requires Lacks(t, t', out)
    ensures Removable(t', k) <==> Spared(t, out, k)
  {
    hide PubMeta, SubMeta, TakenIds, TakenNames;
  }

  lemma {:induction false} TakenSame(t: TopicTables, t': TopicTables, out: set<TopicIdx>, k: TopicIdx)
    requires Lacks(t, t', out) && Removable(t', k)
    ensures Removable(t, k) && TakenIds(t', k) == TakenIds(t, k) && TakenNames(t', k) == TakenNames(t, k)
  {
    hide PubMeta, SubMeta;
    assert k in t.topics && t'.topics[k] == t.topics[k];
    var name := t.topics[k].name;
    assert PubMeta(name) in t.topicMap && t'.topicMap[PubMeta(name)] == t.topicMap[PubMeta(name)];
    assert SubMeta(name) in t.topicMap && t'.topicMap[SubMeta(name)] == t.topicMap[SubMeta(name)];
    hide Lacks;
  }

  lemma {:induction false} LacksMore(t: TopicTables, t': TopicTables, r: TopicTables, out: set<TopicIdx>, k: TopicIdx)
    requires Lacks(t, t', out) && Removable(t, k)
    requires r.topics == t'.topics - TakenIds(t, k) && r.topicMap == t'.topicMap - TakenNames(t, k)
    ensures Lacks(t, r, out + {k})
  {
    hide Removable, TakenIds, TakenNames;
    assert forall j :: j in r.topics <==> j in t'.topics && j !in TakenIds(t, k);
    assert forall n :: n in r.topicMap <==> n in t'.topicMap && n !in TakenNames(t, k);
  }

  lemma {:induction false} WithoutMore(t: TopicTables, t': TopicTables, out: set<TopicIdx>, k: TopicIdx)
    requires Lacks(t, t', out) && Removable(t', k)
    ensures Lacks(t, Removed(t', k).0, out + {k})
  {
    hide Lacks, Removable, TakenIds, TakenNames, Removed;
    TakenSame(t, t', out, k);
    RemovedTables(t', k);
    LacksMore(t, t', Removed(t', k).0, out, k);
  }

  lemma {:induction false} RemovedTables(t: TopicTables, i: TopicIdx)
    requires Removable(t, i)
    ensures Removed(t, i).0.topics == t.topics - TakenIds(t, i) && Removed(t, i).0.topicMap == t.topicMap - TakenNames(t, i)
  {
    hide PubMeta, SubMeta;
    MetaInjective(t.topics[i].name, t.topics[i].name);
  }

  // ---- the loop ----

  /** A 16-bit count after so many decrements that wrap around. */
  function ValueAt(count: u16, n: nat): u16 {
    (count - n) % 0x1_0000
  }

  /** The value a decrement for the topic of this pubuid meets after these others. */
  function Meets(p: PubTables, pubs: map<PubUID, TopicIdx>, front: seq<PubUID>, k: TopicIdx): u16
    requires k in p.pubCount
  {
    ValueAt(p.pubCount[k], Count(pubs, front, k))
  }

  /** The topics whose count comes to zero. */
  function Out(p: PubTables, pubs: map<PubUID, TopicIdx>, order: seq<PubUID>): set<TopicIdx>
    requires forall u | u in order :: u in pubs
  {
    if order == [] then {}
    else
      var front, last := order[..|order| - 1], order[|order| - 1];
      assert last in order && forall u | u in front :: u in order;
      var k := pubs[last];
      Out(p, pubs, front) + if k in p.pubCount && Meets(p, pubs, front, k) == 1 then {k} else {}
  }

  /** The release for this pubuid succeeds: its topic is not counted, or its count is above one, or is one and the topic can be removed
      and was not spoiled by those removed before, or is zero where that wraps around. */
  ghost predicate Passes(st: State, pubs: map<PubUID, TopicIdx>, order: seq<PubUID>, x: nat)
    requires x < |order| && forall u | u in order :: u in pubs
  {
    assert forall u | u in order[..x] :: u in order;
    var k := pubs[order[x]];
    k in st.p.pubCount ==>
      && (Meets(st.p, pubs, order[..x], k) == 0 ==> !st.overflowChecks)
      && (Meets(st.p, pubs, order[..x], k) == 1 ==> Spared(st.t, Out(st.p, pubs, order[..x]), k))
  }

  ghost predicate AllPass(st: State, pubs: map<PubUID, TopicIdx>, order: seq<PubUID>)
    requires forall u | u in order :: u in pubs
  {
    forall x | 0 <= x < |order| :: Passes(st, pubs, order, x)
  }

  /** The state after the loop, as far as it matters. */
  ghost predicate Released(st: State, r: State, pubs: map<PubUID, TopicIdx>, order: seq<PubUID>)
    requires forall u | u in order :: u in pubs
  {
    && Lacks(st.t, r.t, Out(st.p, pubs, order))
    && r.overflowChecks == st.overflowChecks && r.p.pubCount.Keys == st.p.pubCount.Keys
    && (forall k | k in st.p.pubCount :: r.p.pubCount[k] == Meets(st.p, pubs, order, k))
  }

  lemma {:induction false} PassesPrefix(st: State, pubs: map<PubUID, TopicIdx>, front: seq<PubUID>, last: PubUID)
    requires last in pubs && forall u | u in front :: u in pubs
    ensures AllPass(st, pubs, front + [last]) <==> AllPass(st, pubs, front) && Passes(st, pubs, front + [last], |front|)
  {
    hide Meets, Spared, Out;
    var order := front + [last];
    forall x | 0 <= x < |front| ensures Passes(st, pubs, order, x) <==> Passes(st, pubs, front, x) {
      assert order[..x] == front[..x] && order[x] == front[x];
    }
  }

  lemma {:induction false} ValueAtNext(count: u16, n: nat)
    ensures ValueAt(count, n + 1) == if ValueAt(count, n) == 0 then 0xFFFF else ValueAt(count, n) - 1
    ensures ValueAt(count, 0) == count
  {}

  lemma {:induction false} MeetsNext(p: PubTables, pubs: map<PubUID, TopicIdx>, front: seq<PubUID>, last: PubUID, k: TopicIdx)
    requires last in pubs && k in p.pubCount
    ensures var v := Meets(p, pubs, front, k);
      Meets(p, pubs, front + [last], k) == if pubs[last] == k then (if v == 0 then 0xFFFF else v - 1) else v
  {
    assert (front + [last])[..|front|] == front;
    ValueAtNext(p.pubCount[k], Count(pubs, front, k));
    hide ValueAt;
  }

  lemma {:induction false} OutNext(p: PubTables, pubs: map<PubUID, TopicIdx>, front: seq<PubUID>, last: PubUID)
    requires last in pubs && forall u | u in front :: u in pubs
    ensures Out(p, pubs, front + [last]) ==
      Out(p, pubs, front) + if pubs[last] in p.pubCount && Meets(p, pubs, front, pubs[last]) == 1 then {pubs[last]} else {}
  {
    hide Meets;
    assert (front + [last])[..|front|] == front;
  }

  lemma {:induction false} ReleasedStart(st: State, pubs: map<PubUID, TopicIdx>)
    ensures Released(st, st, pubs, [])
  {
    forall k | k in st.p.pubCount { ValueAtNext(st.p.pubCount[k], 0); }
    hide ValueAt, PubMeta, SubMeta;
  }

  /** One release, seen from the start. */
  lemma {:induction false} ReleasedNext(st: State, mid: State, pubs: map<PubUID, TopicIdx>, front: seq<PubUID>, last: PubUID)
    requires last in pubs && (forall u | u in front :: u in pubs) && Released(st, mid, pubs, front)
    requires pubs[last] in mid.p.pubCount && Releasable(mid, pubs[last])
    ensures Released(st, Release(mid, pubs[last]).st, pubs, front + [last])
  {
    hide Lacks, Meets, Out, Removable, Removed, Release, Count, SubsUntouched, SeatsUntouched;
    var k := pubs[last];
    var r := Release(mid, k).st;
    ReleaseTables(mid, k);
    OutNext(st.p, pubs, front, last);
    forall i | i in st.p.pubCount { MeetsNext(st.p, pubs, front, last, i); }
    if mid.p.pubCount[k] == 1 {
      ReleasableLast(mid, k);
      WithoutMore(st.t, mid.t, Out(st.p, pubs, front), k);
    } else {
      assert Out(st.p, pubs, front) + {} == Out(st.p, pubs, front);
    }
  }

  lemma {:induction false} ReleasedSkip(st: State, mid: State, pubs: map<PubUID, TopicIdx>, front: seq<PubUID>, last: PubUID)
    requires last in pubs && (forall u | u in front :: u in pubs) && Released(st, mid, pubs, front) && pubs[last] !in mid.p.pubCount
    ensures Released(st, mid, pubs, front + [last])
  {
    hide Lacks, Meets, Out, Count;
    OutNext(st.p, pubs, front, last);
    assert Out(st.p, pubs, front) + {} == Out(st.p, pubs, front);
    forall i | i in st.p.pubCount { MeetsNext(st.p, pubs, front, last, i); }
  }

  lemma {:induction false} PassesIff(st: State, mid: State, pubs: map<PubUID, TopicIdx>, front: seq<PubUID>, last: PubUID)
    requires last in pubs && (forall u | u in front :: u in pubs) && Released(st, mid, pubs, front)
    ensures Passes(st, pubs, front + [last], |front|) <==> Releasable(mid, pubs[last])
  {
    hide Lacks, Meets, Out, Removable, Spared, Count;
    assert (front + [last])[..|front|] == front;
    RemovableWithout(st.t, mid.t, Out(st.p, pubs, front), pubs[last]);
  }

  /** For any client, in any state whatever: the loop comes to its end exactly if at each pubuid the count it meets is not a zero that
      panics, and the topics whose counts come to zero can be removed and do not spoil each other. */
  lemma {:induction false} LoopPassesIff(st: State, pubs: map<PubUID, TopicIdx>, order: seq<PubUID>)
    requires forall u | u in order :: u in pubs
    ensures ReleaseAll(st, pubs, order).out.Ok? <==> AllPass(st, pubs, order)
    ensures ReleaseAll(st, pubs, order).out.Ok? ==> Released(st, ReleaseAll(st, pubs, order).st, pubs, order)
  {
    hide Release, Releasable, Released, Passes, AllPass, SubsUntouched, SeatsUntouched;
    if order == [] {
      ReleasedStart(st, pubs);
      NonePass(st, pubs);
    } else {
      var front, last := order[..|order| - 1], order[|order| - 1];
      assert last in order && (forall u | u in front :: u in order) && order == front + [last];
      LoopPassesIff(st, pubs, front);
      PassesPrefix(st, pubs, front, last);
      var before := ReleaseAll(st, pubs, front);
      if before.out.Ok? {
        PassesIff(st, before.st, pubs, front, last);
        if pubs[last] in before.st.p.pubCount {
          ReleaseSucceedsIff(before.st, pubs[last]);
          if Releasable(before.st, pubs[last]) {
            ReleasedNext(st, before.st, pubs, front, last);
          }
        } else {
          NotCountedReleasable(before.st, pubs[last]);
          ReleasedSkip(st, before.st, pubs, front, last);
        }
      }
    }
  }

  lemma {:induction false} NonePass(st: State, pubs: map<PubUID, TopicIdx>)
    ensures AllPass(st, pubs, [])
  {}

  // ---- a disconnect ----

  lemma {:induction false} ReleasedLacks(st: State, r: State, pubs: map<PubUID, TopicIdx>, order: seq<PubUID>)
    requires (forall u | u in order :: u in pubs) && Released(st, r, pubs, order)
    ensures Lacks(st.t, r.t, Out(st.p, pubs, order))
  {
    hide Lacks, Out, Meets;
  }

  lemma {:induction false} PassFrame(a: State, b: State, pubs: map<PubUID, TopicIdx>, order: seq<PubUID>)
    requires (forall u | u in order :: u in pubs) && b.t == a.t && b.p == a.p && b.overflowChecks == a.overflowChecks
    ensures AllPass(a, pubs, order) <==> AllPass(b, pubs, order)
  {
    hide Meets, Out, Spared;
    forall x | 0 <= x < |order| ensures Passes(a, pubs, order, x) <==> Passes(b, pubs, order, x) {}
  }

  /** In every reachable state, for every known client and every order its pubuids are met in, told by the tables before the call: the
      disconnect succeeds exactly if the loop passes at every pubuid, and both metatopics of the client can be removed, are not spoiled
      by what the loop removes, and the first does not spoil the second. */
  lemma {:induction false} DisconnectByTables(states: seq<State>, ops: seq<Op>, j: nat, identity: Identity, order: seq<PubUID>)
    requires IsRun(states, ops) && j <= |ops| && identity in states[j].c.clientMap
    requires Enumerates(order, PubsOf(states[j].c, identity).Keys)
    ensures forall u | u in order :: u in PubsOf(states[j].c, identity)
    ensures states[j].c.clientMap[identity] in states[j].p.clientMetatopics
    ensures var st, pubs := states[j], PubsOf(states[j].c, identity);
      var metas, out := st.p.clientMetatopics[st.c.clientMap[identity]], Out(st.p, pubs, order);
      DisconnectStep(st, identity, order).out.Ok? <==>
        AllPass(st, pubs, order) && Spared(st.t, out, metas.0) && Spared(st.t, out + {metas.0}, metas.1)
  {
    hide Inv, Init, Step, Enabled, Enumerates, PubsOf, Leave, DisconnectStep, Unregister, ReleaseAll, Removed, Removable, Released, Lacks, Spared, AllPass, Out, IsServicePair;
    var st, pubs, st1, idx := states[j], PubsOf(states[j].c, identity), Unregister(states[j], identity), states[j].c.clientMap[identity];
    InOrder(order, pubs);
    KnownClient(states, ops, j, identity);
    DisconnectShape(st, identity, order);
    UnregisterTables(st, identity);
    PassFrame(st, st1, pubs, order);
    LoopPassesIff(st1, pubs, order);
    LeaveSucceedsIff(st1, pubs, order, idx);
    if ReleaseAll(st1, pubs, order).out.Ok? {
      var r, metas, out := ReleaseAll(st1, pubs, order).st, st.p.clientMetatopics[idx], Out(st.p, pubs, order);
      ReleasedLacks(st1, r, pubs, order);
      RemovableWithout(st.t, r.t, out, metas.0);
      if Removable(r.t, metas.0) {
        WithoutMore(st.t, r.t, out, metas.0);
        RemovableWithout(st.t, Removed(r.t, metas.0).0, out + {metas.0}, metas.1);
      }
    }
  }
}
