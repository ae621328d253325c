/** What the calls of the interleaving model do to the tables, action by action, and what they have achieved when they end. */
module LockEffects {
  import opened Basics
  import opened Protocol
  import opened Meanings
  import opened Locks

  // ---- single actions ----

  /** A name in use stands for this id, and the subscription asks for it. */
  ghost predicate Calls(t: TopicShare, q: Subscription, i: TopicIdx) {
    exists n :: Lookup(t.names, n) == Some(i) && AsksFor(q, n)
  }

  lemma {:induction false} WantedMeans(t: TopicShare, q: Subscription, i: TopicIdx)
    ensures i in Wanted(t, q) <==> Calls(t, q, i)
  {
    forall n { MatchingMeans(q, n); }
    hide AsksFor, Subscription.CaresAbout;
    if i in Wanted(t, q) {
      var n :| n in t.names && q.CaresAbout(n) && t.names[n] == i;
      assert Lookup(t.names, n) == Some(i) && AsksFor(q, n);
    }
  }

  /** The loop of `subscribe` enters the subscription into the lists of just the ids it calls for, if each of these has a list. */
  lemma {:induction false} LoopExact(m: Shared, pc: Pc, choice: Choice)
    requires pc.Sub? && pc.sub.SLoop? && forall i | Calls(m.t, pc.q, i) :: i in m.t.lists
    ensures Act(m, pc, choice).Some?
    ensures var (m', next) := Act(m, pc, choice).value;
      && next == pc.(sub := SWantTimes) && m' == m.(t := m.t.(lists := m'.t.lists)) && m'.t.lists.Keys == m.t.lists.Keys
      && forall i, s | i in m.t.lists :: s in m'.t.lists[i] <==> s in m.t.lists[i] || (s == pc.s && Calls(m.t, pc.q, i))
  {
    forall i { WantedMeans(m.t, pc.q, i); }
    hide Wanted, Calls;
  }

  /** The three inserts and the binding of `subscribe`. */
  lemma {:induction false} InsertsExact(m: Shared, pc: Pc, choice: Choice)
    requires pc.Sub? && pc.sub in {SInsertTime, SInsertValue, SInsertSub, SBind} && (pc.sub.SBind? ==> pc.c in m.clients)
    ensures Act(m, pc, choice).Some?
    ensures var m' := Act(m, pc, choice).value.0;
      match pc.sub
      case SInsertTime => m' == m.(times := m.times + {pc.s})
      case SInsertValue => m' == m.(values := m.values + {pc.s})
      case SInsertSub => m' == m.(subs := m.subs + {pc.s})
      case _ =>
        && pc.c in m'.clients && m' == m.(clients := m.clients[pc.c := m'.clients[pc.c]])
        && forall u :: Lookup(m'.clients[pc.c], u) == if u == AsU32(pc.q.subuid) then Some(pc.s) else Lookup(m.clients[pc.c], u)
  {}

  /** What `unsubscribe` takes away, one by one. */
  lemma {:induction false} RemovesExact(m: Shared, pc: Pc, choice: Choice)
    requires pc.Unsub? && pc.unsub in {UForget, URemoveSub, URemoveValue, URemoveTime}
    ensures Act(m, pc, choice).Some?
    ensures var m' := Act(m, pc, choice).value.0;
      match pc.unsub
      case UForget =>
        && m' == m.(t := m.t.(lists := m'.t.lists)) && m'.t.lists.Keys == m.t.lists.Keys
        && forall i, s | i in m.t.lists :: s in m'.t.lists[i] <==> s in m.t.lists[i] && s != pc.s
      case URemoveSub => m' == m.(subs := m.subs - {pc.s})
      case URemoveValue => m' == m.(values := m.values - {pc.s})
      case _ => m' == m.(times := m.times - {pc.s})
  {}

  /** What adding a topic does: the id, the topic, the name, the list. */
  lemma {:induction false} AddsExact(m: Shared, pc: Pc, choice: Choice)
    requires pc.Add? && pc.add in {ACheck, ATakeId, AInsertTopic, AInsertName, AInsertList}
    ensures Act(m, pc, choice).Some?
    ensures var (m', next) := Act(m, pc, choice).value;
      match pc.add
      case ACheck => m' == m && (next == Other(pc.outer) <==> pc.n in m.t.names)
      case ATakeId => m' == m.(t := m.t.(nextTopic := m.t.nextTopic + 1)) && next.Add? && next.id == m.t.nextTopic && next.n == pc.n
      case AInsertTopic => m' == m.(t := m.t.(live := m.t.live + {pc.id}, title := m.t.title[pc.id := pc.n]))
      case AInsertName => m' == m.(t := m.t.(names := m.t.names[pc.n := pc.id], known := m.t.known + {pc.id}))
      case _ => m' == m.(t := m.t.(lists := m.t.lists[pc.id := {}]))
  {}

  /** What removing a topic does: the topic, then, if the names of both metatopics are in use, the three names and the other two topics, then
      the three lists. */
  lemma {:induction false} TakesExact(m: Shared, pc: Pc, choice: Choice)
    requires pc.Remove? && pc.remove in {RTakeTopic, RTakeNames, RDropLists} && pc.id in m.t.title
    ensures Act(m, pc, choice).Some?
    ensures var (m', next) := Act(m, pc, choice).value;
      match pc.remove
      case RTakeTopic => m' == m.(t := m.t.(live := m.t.live - {pc.id})) && (next == Other(pc.outer) <==> pc.id !in m.t.live)
      case RTakeNames =>
        var name := m.t.title[pc.id];
        if "$pub$" + name !in m.t.names then m' == m && next == Other(pc.outer)
        else if "$sub$" + name !in m.t.names then m' == m.(t := m.t.(names := m.t.names - {"$pub$" + name})) && next == Other(pc.outer)
        else
          var p, s := m.t.names["$pub$" + name], m.t.names["$sub$" + name];
          && m' == m.(t := m.t.(names := m.t.names - {"$pub$" + name, "$sub$" + name, name}, live := m.t.live - {p, s}))
          && next.Remove? && next.gone == {pc.id, p, s}
      case _ => m' == m.(t := m.t.(lists := m.t.lists - pc.gone, cleansed := m.t.cleansed + pc.gone))
  {
    var name := m.t.title[pc.id];
    ReservedNamesMean(name);
    assert "$pub$" + name != "$sub$" + name by {
      assert ("$pub$" + name)[1] == 'p' && ("$sub$" + name)[1] == 's';
    }
    hide PubMeta, SubMeta;
  }

  // ---- whole calls ----

  /** However the workers interleave, a subscribe that binds its id ends with the subscription in all three tables, bound to the client's
      subuid. */
  lemma {:induction false} SubscribeDone(gs: seq<Global>, ts: seq<TaskId>, choices: seq<Choice>, k: nat, t: TaskId)
    requires IsInterleaving(gs, ts, choices) && k < |ts| && ts[k] == t && t in gs[k].tasks && gs[k].tasks[t].Sub? && gs[k].tasks[t].sub.SBind?
    ensures var pc, m := gs[k].tasks[t], gs[k + 1].m;
      && gs[k + 1].tasks == gs[k].tasks[t := DONE]
      && pc.s in m.subs && pc.s in m.values && pc.s in m.times
      && pc.c in m.clients && Lookup(m.clients[pc.c], AsU32(pc.q.subuid)) == Some(pc.s)
  {
    hide LockInv, Starts, Held, LoopFails, Wanted;
    RunLocks(gs, ts, choices, k);
    assert Moves(gs[k], gs[k + 1], ts[k], choices[k]);
    ProgressOf(gs[k], t);
  }

  /** And an unsubscribe ends with the subscription in no table and no list. */
  lemma {:induction false} UnsubscribeDone(gs: seq<Global>, ts: seq<TaskId>, choices: seq<Choice>, k: nat, t: TaskId)
    requires IsInterleaving(gs, ts, choices) && k < |ts| && ts[k] == t && t in gs[k].tasks && gs[k].tasks[t].Unsub? && gs[k].tasks[t].unsub.URemoveTime?
    ensures var s, m := gs[k].tasks[t].s, gs[k + 1].m;
      && gs[k + 1].tasks == gs[k].tasks[t := DONE]
      && s !in m.subs && s !in m.values && s !in m.times && forall i | i in m.t.lists :: s !in m.t.lists[i]
  {
    hide LockInv, Starts, Held, LoopFails, Wanted;
    RunLocks(gs, ts, choices, k);
    assert Moves(gs[k], gs[k + 1], ts[k], choices[k]);
    ProgressOf(gs[k], t);
  }

  lemma {:induction false} ProgressOf(g: Global, t: TaskId)
    requires LockInv(g) && t in g.tasks
    ensures Progress(g.tasks[t], g.m)
  {
    hide LocksOk, IdsOk, TopicIdsOk, BoundOk, Findable, NamesOk, FailedOk, ListedUsed, ListedOk, Progress;
  }
}
