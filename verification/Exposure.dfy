/** An interleaving in which a subscribe meets a name without a list, and a later `set_value` a subscription without a store. */
module Exposure {
  import opened Basics
  import opened Protocol
  import opened Locks

  // ---- one worker moving alone ----

  function LocksOf(t: TaskId, pc: Pc): map<Lock, TaskId> {
    map l | l in Held(pc) :: t
  }

  /** The locks of worker `t` are the only ones taken. */
  ghost predicate Alone(g: Global, t: TaskId) {
    t in g.tasks && g.owner == LocksOf(t, g.tasks[t])
  }

  /** Where worker `t` gets with its next move. */
  function Moved(m: Shared, pc: Pc, choice: Choice): Option<(Shared, Pc)> {
    if Awaited(pc).Some? then Some((m, Awaited(pc).value.1))
    else if choice.Grab? then None
    else Act(m, pc, choice)
  }

  lemma {:induction false} AloneGrabs(g: Global, t: TaskId)
    requires Alone(g, t) && Awaited(g.tasks[t]).Some? && Awaited(g.tasks[t]).value.0 !in Held(g.tasks[t])
    ensures var (l, next) := Awaited(g.tasks[t]).value;
      l !in g.owner && g.owner[l := t] == LocksOf(t, next)
  {
    AwaitedHolds(g.tasks[t]);
    hide Held, Awaited;
  }

  lemma {:induction false} AloneActs(g: Global, t: TaskId, next: Pc)
    requires Alone(g, t) && Held(next) <= Held(g.tasks[t])
    ensures Owners(g.owner, t, next) == LocksOf(t, next)
  {
    hide Held;
  }

  /** An interleaving goes on with a move of `t`. */
  lemma {:induction false} Solo(gs: seq<Global>, ts: seq<TaskId>, choices: seq<Choice>, t: TaskId, choice: Choice)
    returns (gs': seq<Global>, ts': seq<TaskId>, choices': seq<Choice>)
    requires IsInterleaving(gs, ts, choices) && Alone(gs[|ts|], t)
    requires Moved(gs[|ts|].m, gs[|ts|].tasks[t], choice).Some?
    requires Awaited(gs[|ts|].tasks[t]).Some? ==> Awaited(gs[|ts|].tasks[t]).value.0 !in Held(gs[|ts|].tasks[t])
    ensures IsInterleaving(gs', ts', choices') && gs <= gs' && |gs'| == |ts'| + 1 && |ts'| == |ts| + 1
    ensures var (m, next) := Moved(gs[|ts|].m, gs[|ts|].tasks[t], choice).value;
      Alone(gs'[|ts'|], t) && gs'[|ts'|].tasks == gs[|ts|].tasks[t := next] && gs'[|ts'|].m == m
  {
    hide Held, Awaited, Act, Starts, Owners, LocksOf;
    var g := gs[|ts|];
    var pc := g.tasks[t];
    var (m, next) := Moved(g.m, pc, choice).value;
    var g' := Global(LocksOf(t, next), g.tasks[t := next], m);
    if Awaited(pc).Some? {
      AloneGrabs(g, t);
    } else {
      ActHolds(g.m, pc, choice);
      AloneActs(g, t, next);
    }
    assert Moves(g, g', t, choice);
    gs', ts', choices' := gs + [g'], ts + [t], choices + [choice];
    assert gs'[0] == gs[0];
    hide Moves;
  }

  /** A worker without locks leaves the floor to another. */
  lemma {:induction false} Yields(g: Global, t: TaskId, r: TaskId)
    requires Alone(g, t) && r in g.tasks && Held(g.tasks[t]) == {} && Held(g.tasks[r]) == {}
    ensures Alone(g, r)
  {
    hide Held;
  }

  // ---- up to the two inserts ----

  lemma {:induction false} AddChecks(gs: seq<Global>, ts: seq<TaskId>, choices: seq<Choice>, a: TaskId, n: string)
    returns (gs': seq<Global>, ts': seq<TaskId>, choices': seq<Choice>)
    requires IsInterleaving(gs, ts, choices) && Alone(gs[|ts|], a) && gs[|ts|].tasks[a] == DONE && n !in gs[|ts|].m.t.names
    ensures IsInterleaving(gs', ts', choices') && gs <= gs' && |gs'| == |ts'| + 1
    ensures var g, g' := gs[|ts|], gs'[|ts'|];
      Alone(g', a) && g'.tasks == g.tasks[a := Add({}, n, 0, AWantTopics)] && g'.m == g.m
  {
    hide IsInterleaving, Alone, SubAct, UnsubAct, SendAct, RemoveAct, SetAct;
    gs', ts', choices' := Solo(gs, ts, choices, a, Begin(Add({}, n, 0, AWantTopicMap)));
    gs', ts', choices' := Solo(gs', ts', choices', a, Go);
    gs', ts', choices' := Solo(gs', ts', choices', a, Go);
  }

  lemma {:induction false} AddTakesId(gs: seq<Global>, ts: seq<TaskId>, choices: seq<Choice>, a: TaskId, n: string)
    returns (gs': seq<Global>, ts': seq<TaskId>, choices': seq<Choice>)
    requires IsInterleaving(gs, ts, choices) && Alone(gs[|ts|], a) && gs[|ts|].tasks[a] == Add({}, n, 0, AWantTopics)
    ensures IsInterleaving(gs', ts', choices') && gs <= gs' && |gs'| == |ts'| + 1
    ensures var g, g' := gs[|ts|], gs'[|ts'|];
      && Alone(g', a) && g'.tasks == g.tasks[a := Add({}, n, g.m.t.nextTopic, AWantCount)]
      && g'.m == g.m.(t := g.m.t.(nextTopic := g.m.t.nextTopic + 1, live := g.m.t.live + {g.m.t.nextTopic}, title := g.m.t.title[g.m.t.nextTopic := n]))
  {
    hide IsInterleaving, Alone, SubAct, UnsubAct, SendAct, RemoveAct, SetAct, OtherAct;
    gs', ts', choices' := Solo(gs, ts, choices, a, Go);
    gs', ts', choices' := Solo(gs', ts', choices', a, Go);
    gs', ts', choices' := Solo(gs', ts', choices', a, Go);
    gs', ts', choices' := Solo(gs', ts', choices', a, Go);
  }

  lemma {:induction false} AddNames(gs: seq<Global>, ts: seq<TaskId>, choices: seq<Choice>, a: TaskId, n: string, i: TopicIdx)
    returns (gs': seq<Global>, ts': seq<TaskId>, choices': seq<Choice>)
    requires IsInterleaving(gs, ts, choices) && Alone(gs[|ts|], a) && gs[|ts|].tasks[a] == Add({}, n, i, AWantCount)
    ensures IsInterleaving(gs', ts', choices') && gs <= gs' && |gs'| == |ts'| + 1
    ensures var g, g' := gs[|ts|], gs'[|ts'|];
      && Alone(g', a) && g'.tasks == g.tasks[a := Add({}, n, i, AWantList)]
      && g'.m == g.m.(t := g.m.t.(names := g.m.t.names[n := i], known := g.m.t.known + {i}))
  {
    hide IsInterleaving, Alone, SubAct, UnsubAct, SendAct, RemoveAct, SetAct, OtherAct;
    gs', ts', choices' := Solo(gs, ts, choices, a, Go);
    gs', ts', choices' := Solo(gs', ts', choices', a, Go);
    gs', ts', choices' := Solo(gs', ts', choices', a, Go);
    gs', ts', choices' := Solo(gs', ts', choices', a, Go);
  }

  // ---- a subscribe in between ----

  lemma {:induction false} SubChecks(gs: seq<Global>, ts: seq<TaskId>, choices: seq<Choice>, b: TaskId, c: ClientIdx, q: Subscription)
    returns (gs': seq<Global>, ts': seq<TaskId>, choices': seq<Choice>)
    requires IsInterleaving(gs, ts, choices) && Alone(gs[|ts|], b) && gs[|ts|].tasks[b] == DONE && c in gs[|ts|].m.clients
    ensures IsInterleaving(gs', ts', choices') && gs <= gs' && |gs'| == |ts'| + 1
    ensures var g, g' := gs[|ts|], gs'[|ts'|];
      Alone(g', b) && g'.tasks == g.tasks[b := Sub(c, q, 0, SWantTopicMap)] && g'.m == g.m
  {
    hide IsInterleaving, Alone, AddAct, UnsubAct, SendAct, RemoveAct, SetAct;
    gs', ts', choices' := Solo(gs, ts, choices, b, Begin(Sub(c, q, 0, SWantClients)));
    gs', ts', choices' := Solo(gs', ts', choices', b, Go);
    gs', ts', choices' := Solo(gs', ts', choices', b, Go);
  }

  lemma {:induction false} SubGrabs(gs: seq<Global>, ts: seq<TaskId>, choices: seq<Choice>, b: TaskId, c: ClientIdx, q: Subscription)
    returns (gs': seq<Global>, ts': seq<TaskId>, choices': seq<Choice>)
    requires IsInterleaving(gs, ts, choices) && Alone(gs[|ts|], b) && gs[|ts|].tasks[b] == Sub(c, q, 0, SWantTopicMap)
    ensures IsInterleaving(gs', ts', choices') && gs <= gs' && |gs'| == |ts'| + 1
    ensures var g, g' := gs[|ts|], gs'[|ts'|];
      Alone(g', b) && g'.tasks == g.tasks[b := Sub(c, q, 0, SWantCounters)] && g'.m == g.m
  {
    hide IsInterleaving, Alone, Act;
    gs', ts', choices' := Solo(gs, ts, choices, b, Go);
    gs', ts', choices' := Solo(gs', ts', choices', b, Go);
    gs', ts', choices' := Solo(gs', ts', choices', b, Go);
  }

  lemma {:induction false} SubTakesId(gs: seq<Global>, ts: seq<TaskId>, choices: seq<Choice>, b: TaskId, c: ClientIdx, q: Subscription)
    returns (gs': seq<Global>, ts': seq<TaskId>, choices': seq<Choice>)
    requires IsInterleaving(gs, ts, choices) && Alone(gs[|ts|], b) && gs[|ts|].tasks[b] == Sub(c, q, 0, SWantCounters)
    ensures IsInterleaving(gs', ts', choices') && gs <= gs' && |gs'| == |ts'| + 1
    ensures var g, g' := gs[|ts|], gs'[|ts'|];
      Alone(g', b) && g'.tasks == g.tasks[b := Sub(c, q, g.m.nextSub, SLoop)] && g'.m == g.m.(nextSub := g.m.nextSub + 1)
  {
    hide IsInterleaving, Alone, AddAct, UnsubAct, SendAct, RemoveAct, SetAct, OtherAct, LoopFails, Wanted, Pushed;
    gs', ts', choices' := Solo(gs, ts, choices, b, Go);
    gs', ts', choices' := Solo(gs', ts', choices', b, Go);
    gs', ts', choices' := Solo(gs', ts', choices', b, Go);
  }

  /** The loop fails after it got to some lists. */
  lemma {:induction false} SubFails(gs: seq<Global>, ts: seq<TaskId>, choices: seq<Choice>, b: TaskId, done: set<TopicIdx>)
    returns (gs': seq<Global>, ts': seq<TaskId>, choices': seq<Choice>)
    requires IsInterleaving(gs, ts, choices) && Alone(gs[|ts|], b) && gs[|ts|].tasks[b].Sub? && gs[|ts|].tasks[b].sub.SLoop?
    requires LoopFails(gs[|ts|].m.t, gs[|ts|].tasks[b].q) && done <= Wanted(gs[|ts|].m.t, gs[|ts|].tasks[b].q)
    ensures IsInterleaving(gs', ts', choices') && gs <= gs' && |gs'| == |ts'| + 1 && |ts'| == |ts| + 1
    ensures var g, g' := gs[|ts|], gs'[|ts'|];
      && Alone(g', b) && g'.tasks == g.tasks[b := DONE]
      && g'.m == g.m.(t := g.m.t.(lists := Pushed(g.m.t.lists, done, g.tasks[b].s)), failed := g.m.failed + {g.tasks[b].s})
  {
    hide IsInterleaving, Alone, AddAct, UnsubAct, SendAct, RemoveAct, SetAct, OtherAct, LoopFails, Wanted, Pushed;
    gs', ts', choices' := Solo(gs, ts, choices, b, Reach(done));
  }

  // ---- a value afterwards ----

  lemma {:induction false} SetChecks(gs: seq<Global>, ts: seq<TaskId>, choices: seq<Choice>, r: TaskId, i: TopicIdx)
    returns (gs': seq<Global>, ts': seq<TaskId>, choices': seq<Choice>)
    requires IsInterleaving(gs, ts, choices) && Alone(gs[|ts|], r) && gs[|ts|].tasks[r] == DONE
    requires i in gs[|ts|].m.t.live && i in gs[|ts|].m.t.title && '$' !in gs[|ts|].m.t.title[i]
    ensures IsInterleaving(gs', ts', choices') && gs <= gs' && |gs'| == |ts'| + 1
    ensures var g, g' := gs[|ts|], gs'[|ts'|];
      Alone(g', r) && g'.tasks == g.tasks[r := SetValue({}, i, VWantValues)] && g'.m == g.m
  {
    hide IsInterleaving, Alone, AddAct, UnsubAct, SendAct, RemoveAct, SubAct, QueueFinds;
    gs', ts', choices' := Solo(gs, ts, choices, r, Begin(SetValue({}, i, VWantTopics)));
    gs', ts', choices' := Solo(gs', ts', choices', r, Go);
    gs', ts', choices' := Solo(gs', ts', choices', r, Go);
  }

  lemma {:induction false} SetGrabs(gs: seq<Global>, ts: seq<TaskId>, choices: seq<Choice>, r: TaskId, i: TopicIdx)
    returns (gs': seq<Global>, ts': seq<TaskId>, choices': seq<Choice>)
    requires IsInterleaving(gs, ts, choices) && Alone(gs[|ts|], r) && gs[|ts|].tasks[r] == SetValue({}, i, VWantValues)
    ensures IsInterleaving(gs', ts', choices') && gs <= gs' && |gs'| == |ts'| + 1
    ensures var g, g' := gs[|ts|], gs'[|ts'|];
      g'.tasks == g.tasks[r := SetValue({}, i, VQueue)] && g'.m == g.m
  {
    hide IsInterleaving, Alone, Act;
    gs', ts', choices' := Solo(gs, ts, choices, r, Go);
    gs', ts', choices' := Solo(gs', ts', choices', r, Go);
  }

  // ---- together ----

  const EVERYTHING := Subscription(1, {""}, Some(SubscriptionOptions(None, None, Some(true))))

  /** A server with one client and one ordinary topic, and three idle workers. */
  function Quiet(): Global {
    Global(map[], map[1 := DONE, 2 := DONE, 3 := DONE],
           Shared(map[1 := map[]], 2, 0, {}, {}, {}, {}, TopicShare({0}, map[0 := "a"], map["a" := 0], map[0 := {}], 1, {0}, {})))
  }

  /** The tables when the second worker is about to loop: the name `b` has no list yet. */
  function Exposed(): Shared {
    Shared(map[1 := map[]], 2, 1, {}, {}, {}, {},
           TopicShare({0, 1}, map[0 := "a", 1 := "b"], map["a" := 0, "b" := 1], map[0 := {}], 2, {0, 1}, {}))
  }

  lemma {:induction false} QuietStarts()
    ensures IsInterleaving([Quiet()], [], []) && Alone(Quiet(), 1)
  {}

  lemma {:induction false} MatchesAll(name: string)
    ensures EVERYTHING.CaresAbout(name)
  {
    assert "" in EVERYTHING.topics && StartsWith(name, "");
  }

  lemma {:induction false} ExposedFails()
    ensures LoopFails(Exposed().t, EVERYTHING) && {0} <= Wanted(Exposed().t, EVERYTHING)
  {
    MatchesAll("a");
    MatchesAll("b");
    assert Exposed().t.names["a"] in Wanted(Exposed().t, EVERYTHING) && Exposed().t.names["b"] in Wanted(Exposed().t, EVERYTHING);
  }

  lemma {:induction false} OneIn() returns (gs: seq<Global>, ts: seq<TaskId>, choices: seq<Choice>)
    ensures IsInterleaving(gs, ts, choices) && |gs| == |ts| + 1 && Alone(gs[|ts|], 2) && gs[|ts|].m == Exposed().(nextSub := 0)
    ensures gs[|ts|].tasks == map[1 := Add({}, "b", 1, AWantList), 2 := DONE, 3 := DONE]
  {
    hide IsInterleaving, Alone;
    QuietStarts();
    gs, ts, choices := AddChecks([Quiet()], [], [], 1, "b");
    gs, ts, choices := AddTakesId(gs, ts, choices, 1, "b");
    gs, ts, choices := AddNames(gs, ts, choices, 1, "b", 1);
    Yields(gs[|ts|], 1, 2);
  }

  lemma {:induction false} BothIn() returns (gs: seq<Global>, ts: seq<TaskId>, choices: seq<Choice>)
    ensures IsInterleaving(gs, ts, choices) && |gs| == |ts| + 1 && Alone(gs[|ts|], 2) && gs[|ts|].m == Exposed()
    ensures gs[|ts|].tasks == map[1 := Add({}, "b", 1, AWantList), 2 := Sub(1, EVERYTHING, 0, SLoop), 3 := DONE]
  {
    hide IsInterleaving, Alone, Held;
    gs, ts, choices := OneIn();
    gs, ts, choices := SubChecks(gs, ts, choices, 2, 1, EVERYTHING);
    gs, ts, choices := SubGrabs(gs, ts, choices, 2, 1, EVERYTHING);
    gs, ts, choices := SubTakesId(gs, ts, choices, 2, 1, EVERYTHING);
  }

  /** It happens: move `k` is the failing exit of a subscribe, and later `set_value` looks up a store that is not there, on
      a topic that has a list. */
  lemma {:induction false} FailureSpreads() returns (gs: seq<Global>, ts: seq<TaskId>, choices: seq<Choice>, k: nat)
    ensures IsInterleaving(gs, ts, choices) && k < |ts|
    ensures gs[k].tasks == map[1 := Add({}, "b", 1, AWantList), 2 := Sub(1, EVERYTHING, 0, SLoop), 3 := DONE]
    ensures gs[k + 1].tasks == gs[k].tasks[2 := DONE]
    ensures 3 in gs[|ts|].tasks && gs[|ts|].tasks[3] == SetValue({}, 0, VQueue) && 0 in gs[|ts|].m.t.lists && !QueueFinds(gs[|ts|].m, 0)
  {
    hide IsInterleaving, Alone, LoopFails, Wanted;
    var gs1, ts1, choices1 := BothIn();
    k := |ts1|;
    ExposedFails();
    var gs2, ts2, choices2 := SubFails(gs1, ts1, choices1, 2, {0});
    var m := gs2[|ts2|].m;
    assert m.t.lists[0] == {0} && m.values == {};
    Yields(gs2[|ts2|], 2, 3);
    gs, ts, choices := SetChecks(gs2, ts2, choices2, 3, 0);
    gs, ts, choices := SetGrabs(gs, ts, choices, 3, 0);
  }
}
