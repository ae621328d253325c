/** When the topics of one name stay one topic, however additions and removals interleave, and when they do not. */
module NameRaces {
  import opened Basics
  import opened Protocol
  import opened Locks
  import opened Exposure

  /** The worker found the name not in use and has yet to enter it. */
  predicate Pending(pc: Pc, n: string) {
    pc.Add? && pc.n == n && pc.add in {AWantTopics, AWantCounters, ATakeId, AInsertTopic, AWantCount, AInsertCount, AWantName, AInsertName}
  }

  /** Of these, it has inserted the topic. */
  predicate Placed(pc: Pc, n: string, i: TopicIdx) {
    pc.Add? && pc.n == n && pc.id == i && pc.add in {AWantCount, AInsertCount, AWantName, AInsertName}
  }

  /** Two workers are about to add the same name. */
  ghost predicate Overlap(tasks: map<TaskId, Pc>, n: string) {
    exists a, b :: a in tasks && b in tasks && a != b && Pending(tasks[a], n) && Pending(tasks[b], n)
  }

  predicate LiveUnder(t: TopicShare, n: string, i: TopicIdx) {
    i in t.live && i in t.title && t.title[i] == n
  }

  /** Two live topics share a name. */
  ghost predicate Twins(t: TopicShare, n: string) {
    exists i, k :: i != k && LiveUnder(t, n, i) && LiveUnder(t, n, k)
  }

  /** The worker took the topic and has yet to take its names. */
  predicate Taking(pc: Pc) {
    pc.Remove? && pc.remove in {RWantTopicMap, RTakeNames}
  }

  // ---- without overlap ----

  ghost predicate Owned(tasks: map<TaskId, Pc>, t: TopicShare, n: string, i: TopicIdx) {
    Lookup(t.names, n) == Some(i) || exists a :: a in tasks && Placed(tasks[a], n, i)
  }

  /** The live topic of the name is the one the name stands for, or is being added; who adds the name finds it free; and a topic that is
      being taken keeps its name until that is taken, too. */
  ghost predicate RaceOk(tasks: map<TaskId, Pc>, t: TopicShare, n: string) {
    && (forall i, k | LiveUnder(t, n, i) && LiveUnder(t, n, k) :: i == k)
    && (forall i | LiveUnder(t, n, i) :: Owned(tasks, t, n, i))
    && (forall a | a in tasks && Pending(tasks[a], n) :: n !in t.names)
    && (forall r | r in tasks && Taking(tasks[r]) && Lookup(t.title, tasks[r].id) == Some(n) :: Lookup(t.names, n) == Some(tasks[r].id) && tasks[r].id !in t.live)
  }

  /** Nothing the name depends on changes for the worker. */
  ghost predicate SameRace(pc: Pc, next: Pc, n: string) {
    && (Pending(next, n) ==> Pending(pc, n))
    && (forall i :: Placed(pc, n, i) ==> Placed(next, n, i))
    && (Taking(next) ==> Taking(pc) && next.id == pc.id)
  }

  lemma {:induction false} SameRaceOk(tasks: map<TaskId, Pc>, t: TopicShare, t': TopicShare, a: TaskId, next: Pc, n: string)
    requires RaceOk(tasks, t, n) && a in tasks && SameRace(tasks[a], next, n)
    requires t'.live == t.live && t'.title == t.title && t'.names == t.names
    ensures RaceOk(tasks[a := next], t', n)
  {
    hide Pending, Placed;
    var tasks' := tasks[a := next];
    forall i | LiveUnder(t', n, i) ensures Owned(tasks', t', n, i) {
      assert LiveUnder(t, n, i) && Owned(tasks, t, n, i);
      if b :| b in tasks && Placed(tasks[b], n, i) {
        assert Placed(tasks'[b], n, i);
      }
    }
    assert forall i | LiveUnder(t', n, i) :: LiveUnder(t, n, i);
  }

  lemma {:induction false} AwaitedRace(pc: Pc, n: string)
    requires Awaited(pc).Some?
    ensures SameRace(pc, Awaited(pc).value.1, n)
  {}

  /** Actions of others do not touch names and live topics. */
  lemma {:induction false} OtherActRace(m: Shared, pc: Pc, choice: Choice, n: string)
    requires Act(m, pc, choice).Some? && !pc.Add? && !pc.Remove?
    ensures var (m', next) := Act(m, pc, choice).value;
      SameRace(pc, next, n) && m'.t.live == m.t.live && m'.t.title == m.t.title && m'.t.names == m.t.names
  {
    hide LoopFails, Wanted, QueueFinds, Pushed, Forgotten, Bound, Awaited, Held;
  }

  // ---- adding ----

  /** What a worker that adds relies on. */
  ghost predicate AddReady(tasks: map<TaskId, Pc>, t: TopicShare, a: TaskId, n: string) {
    && a in tasks && tasks[a].Add? && RaceOk(tasks, t, n) && NamesOk(t) && TopicProgress(tasks[a], t)
    && (forall b | b in tasks && Pending(tasks[a], n) && Pending(tasks[b], n) :: b == a)
    && (forall r | r in tasks && Taking(tasks[r]) :: tasks[r].id in t.title)
  }

  lemma {:induction false} OwnedMore(tasks: map<TaskId, Pc>, t: TopicShare, a: TaskId, next: Pc, n: string, i: TopicIdx)
    requires a in tasks && Owned(tasks, t, n, i) && (forall k :: Placed(tasks[a], n, k) ==> Placed(next, n, k))
    ensures Owned(tasks[a := next], t, n, i)
  {
    hide Placed;
    var tasks' := tasks[a := next];
    if b :| b in tasks && Placed(tasks[b], n, i) {
      assert Placed(tasks'[b], n, i);
    }
  }

  /** It checks the name. */
  lemma {:induction false} CheckRace(tasks: map<TaskId, Pc>, t: TopicShare, a: TaskId, n: string)
    requires AddReady(tasks, t, a, n) && tasks[a].add.ACheck?
    requires !Overlap(tasks[a := AddAct(t, tasks[a]).value.1], n)
    ensures RaceOk(tasks[a := AddAct(t, tasks[a]).value.1], t, n)
  {
    var next := AddAct(t, tasks[a]).value.1;
    var tasks' := tasks[a := next];
    forall i | LiveUnder(t, n, i) ensures Owned(tasks', t, n, i) {
      OwnedMore(tasks, t, a, next, n, i);
    }
  }

  /** It inserts the topic: no other has the name. */
  lemma {:induction false} InsertTopicRace(tasks: map<TaskId, Pc>, t: TopicShare, a: TaskId, n: string)
    requires AddReady(tasks, t, a, n) && tasks[a].add.AInsertTopic?
    ensures var (t', next) := AddAct(t, tasks[a]).value; RaceOk(tasks[a := next], t', n)
  {
    var pc := tasks[a];
    var (t', next) := AddAct(t, pc).value;
    var tasks' := tasks[a := next];
    assert Placed(tasks'[a], pc.n, pc.id);
    forall i | LiveUnder(t', n, i) ensures if pc.n == n then i == pc.id else LiveUnder(t, n, i) {
      if i != pc.id && pc.n == n {
        assert LiveUnder(t, n, i) && Owned(tasks, t, n, i);
        var b :| b in tasks && Placed(tasks[b], n, i);
        assert Pending(tasks[b], n) && Pending(pc, n);
      }
    }
    forall i | LiveUnder(t', n, i) ensures Owned(tasks', t', n, i) {
      if pc.n != n {
        OwnedMore(tasks, t, a, next, n, i);
        assert Owned(tasks', t, n, i);
      }
    }
  }

  /** It enters the name, which stands for its topic then. */
  lemma {:induction false} InsertNameRace(tasks: map<TaskId, Pc>, t: TopicShare, a: TaskId, n: string)
    requires AddReady(tasks, t, a, n) && tasks[a].add.AInsertName?
    ensures var (t', next) := AddAct(t, tasks[a]).value; RaceOk(tasks[a := next], t', n)
  {
    var pc := tasks[a];
    var (t', next) := AddAct(t, pc).value;
    var tasks' := tasks[a := next];
    forall i | LiveUnder(t', n, i) ensures Owned(tasks', t', n, i) {
      assert LiveUnder(t, n, i) && Owned(tasks, t, n, i);
      if b :| b in tasks && Placed(tasks[b], n, i) {
        assert Pending(tasks[b], n);
        if b != a {
          assert Placed(tasks'[b], n, i);
        }
      }
    }
    assert forall i | LiveUnder(t', n, i) :: LiveUnder(t, n, i);
  }

  lemma {:induction false} AddRace(tasks: map<TaskId, Pc>, t: TopicShare, a: TaskId, n: string)
    requires AddReady(tasks, t, a, n) && Awaited(tasks[a]).None? && AddAct(t, tasks[a]).Some?
    requires !Overlap(tasks[a := AddAct(t, tasks[a]).value.1], n)
    ensures var (t', next) := AddAct(t, tasks[a]).value; RaceOk(tasks[a := next], t', n)
  {
    if tasks[a].add.ACheck? {
      hide RaceOk, NamesOk, TopicProgress;
      CheckRace(tasks, t, a, n);
    } else if tasks[a].add.AInsertTopic? {
      hide RaceOk, NamesOk, TopicProgress;
      InsertTopicRace(tasks, t, a, n);
    } else if tasks[a].add.AInsertName? {
      hide RaceOk, NamesOk, TopicProgress;
      InsertNameRace(tasks, t, a, n);
    } else {
      var (t', next) := AddAct(t, tasks[a]).value;
      assert SameRace(tasks[a], next, n);
      hide RaceOk, NamesOk, TopicProgress;
      SameRaceOk(tasks, t, t', a, next, n);
    }
  }

  // ---- removing ----

  /** What a worker that removes relies on; it is the only one under its lock. */
  ghost predicate RemoveReady(tasks: map<TaskId, Pc>, t: TopicShare, a: TaskId, n: string) {
    && a in tasks && tasks[a].Remove? && '$' !in n && RaceOk(tasks, t, n) && NamesOk(t)
    && (forall b | b in tasks :: TopicProgress(tasks[b], t))
    && (Topics in RemoveHeld(tasks[a].remove) ==> forall r | r in tasks && r != a :: !Taking(tasks[r]))
  }

  /** The topic to be removed was entered before. */
  lemma {:induction false} NotPlaced(tasks: map<TaskId, Pc>, t: TopicShare, a: TaskId, n: string)
    requires RemoveReady(tasks, t, a, n)
    ensures forall b | b in tasks :: !Placed(tasks[b], n, tasks[a].id)
  {
    hide RaceOk, NamesOk;
    assert TopicProgress(tasks[a], t);
    forall b | b in tasks ensures !Placed(tasks[b], n, tasks[a].id) {
      assert TopicProgress(tasks[b], t);
    }
  }

  lemma {:induction false} TakeTopicRace(tasks: map<TaskId, Pc>, t: TopicShare, a: TaskId, n: string)
    requires RemoveReady(tasks, t, a, n) && tasks[a].remove.RTakeTopic?
    ensures var (t', next) := RemoveAct(t, tasks[a]).value; RaceOk(tasks[a := next], t', n)
  {
    var pc := tasks[a];
    var (t', next) := RemoveAct(t, pc).value;
    var tasks' := tasks[a := next];
    assert TopicProgress(pc, t);
    assert forall i | LiveUnder(t', n, i) :: LiveUnder(t, n, i);
    forall i | LiveUnder(t', n, i) ensures Owned(tasks', t', n, i) {
      OwnedMore(tasks, t, a, next, n, i);
      assert Owned(tasks', t, n, i);
    }
    NotPlaced(tasks, t, a, n);
    assert LiveUnder(t, n, pc.id) ==> Owned(tasks, t, n, pc.id);
    assert t'.names == t.names && t'.title == t.title;
    hide PubMeta, SubMeta, NamesOk;
  }

  lemma {:induction false} MetaDollar(name: string)
    ensures '$' in PubMeta(name) && '$' in SubMeta(name)
  {
    assert PubMeta(name)[0] == '$' && SubMeta(name)[0] == '$';
  }

  lemma {:induction false} TakeNamesRace(tasks: map<TaskId, Pc>, t: TopicShare, a: TaskId, n: string)
    requires RemoveReady(tasks, t, a, n) && tasks[a].remove.RTakeNames? && RemoveAct(t, tasks[a]).Some?
    ensures var (t', next) := RemoveAct(t, tasks[a]).value; RaceOk(tasks[a := next], t', n)
  {
    var pc := tasks[a];
    var (t', next) := RemoveAct(t, pc).value;
    var tasks' := tasks[a := next];
    MetaDollar(t.title[pc.id]);
    assert Taking(pc);
    hide PubMeta, SubMeta, NamesOk, TopicProgress;
    assert t'.title == t.title && t'.live <= t.live;
    assert n in t'.names <==> n in t.names && (t.title[pc.id] != n || n in t'.names);
    assert n in t'.names ==> t'.names[n] == t.names[n];
    assert n in t.names && n !in t'.names ==> t.title[pc.id] == n;
    assert forall i | LiveUnder(t', n, i) :: LiveUnder(t, n, i);
    forall i | LiveUnder(t', n, i) ensures Owned(tasks', t', n, i) {
      OwnedMore(tasks, t, a, next, n, i);
      assert Owned(tasks', t, n, i);
    }
  }

  lemma {:induction false} RemoveRace(tasks: map<TaskId, Pc>, t: TopicShare, a: TaskId, n: string)
    requires RemoveReady(tasks, t, a, n) && Awaited(tasks[a]).None? && RemoveAct(t, tasks[a]).Some?
    ensures var (t', next) := RemoveAct(t, tasks[a]).value; RaceOk(tasks[a := next], t', n)
  {
    if tasks[a].remove.RTakeTopic? {
      hide RaceOk, NamesOk, TopicProgress;
      TakeTopicRace(tasks, t, a, n);
    } else if tasks[a].remove.RTakeNames? {
      hide RaceOk, NamesOk, TopicProgress;
      TakeNamesRace(tasks, t, a, n);
    } else {
      var (t', next) := RemoveAct(t, tasks[a]).value;
      assert SameRace(tasks[a], next, n);
      hide RaceOk, NamesOk, TopicProgress;
      SameRaceOk(tasks, t, t', a, next, n);
    }
  }

  // ---- over whole interleavings ----

  lemma {:induction false} ReadyToAdd(g: Global, a: TaskId, n: string)
    requires LockInv(g) && RaceOk(g.tasks, g.m.t, n) && !Overlap(g.tasks, n) && a in g.tasks && g.tasks[a].Add?
    ensures AddReady(g.tasks, g.m.t, a, n)
  {
    hide LocksOk, IdsOk, TopicIdsOk, BoundOk, Findable, FailedOk, ListedUsed, ListedOk, SubProgress, RaceOk, Pending, Held;
    assert Progress(g.tasks[a], g.m);
    forall r | r in g.tasks && Taking(g.tasks[r]) ensures g.tasks[r].id in g.m.t.title {
      assert Progress(g.tasks[r], g.m);
    }
  }

  lemma {:induction false} ReadyToRemove(g: Global, a: TaskId, n: string)
    requires LockInv(g) && RaceOk(g.tasks, g.m.t, n) && a in g.tasks && g.tasks[a].Remove? && '$' !in n
    ensures RemoveReady(g.tasks, g.m.t, a, n)
  {
    hide LocksOk, IdsOk, TopicIdsOk, BoundOk, Findable, FailedOk, ListedUsed, ListedOk, SubProgress, TopicProgress, RaceOk, NamesOk;
    OwnersOk(g);
    forall b | b in g.tasks ensures TopicProgress(g.tasks[b], g.m.t) {
      assert Progress(g.tasks[b], g.m);
    }
    if Topics in RemoveHeld(g.tasks[a].remove) {
      forall r | r in g.tasks && r != a ensures !Taking(g.tasks[r]) {
        Exclusive(g.owner, g.tasks, a, r);
      }
    }
  }

  lemma {:induction false} MoveRace(g: Global, g': Global, t: TaskId, choice: Choice, n: string)
    requires LockInv(g) && RaceOk(g.tasks, g.m.t, n) && Moves(g, g', t, choice) && '$' !in n
    requires !Overlap(g.tasks, n) && !Overlap(g'.tasks, n)
    ensures RaceOk(g'.tasks, g'.m.t, n)
  {
    hide LockInv, RaceOk, Overlap, Held, Awaited, AddAct, RemoveAct, SubAct, UnsubAct, SendAct, SetAct, OtherAct, Owners, SameRace;
    var pc := g.tasks[t];
    if Awaited(pc).Some? {
      AwaitedRace(pc, n);
      SameRaceOk(g.tasks, g.m.t, g.m.t, t, Awaited(pc).value.1, n);
    } else if pc.Other? && choice.Grab? {
      GrabRace(pc, choice.l, n);
      SameRaceOk(g.tasks, g.m.t, g.m.t, t, Other(pc.held + {choice.l}), n);
    } else if pc.Add? {
      ReadyToAdd(g, t, n);
      AddRace(g.tasks, g.m.t, t, n);
    } else if pc.Remove? {
      ReadyToRemove(g, t, n);
      RemoveRace(g.tasks, g.m.t, t, n);
    } else {
      OtherActRace(g.m, pc, choice, n);
      var (m, next) := Act(g.m, pc, choice).value;
      SameRaceOk(g.tasks, g.m.t, m.t, t, next, n);
    }
  }

  lemma {:induction false} GrabRace(pc: Pc, l: Lock, n: string)
    requires pc.Other?
    ensures SameRace(pc, Other(pc.held + {l}), n)
  {}

  lemma {:induction false} StartRace(g: Global, n: string)
    requires Starts(g)
    ensures RaceOk(g.tasks, g.m.t, n)
  {
    forall i: TopicIdx | LiveUnder(g.m.t, n, i) ensures Lookup(g.m.t.names, n) == Some(i) {}
  }

  lemma {:induction false} RunRace(gs: seq<Global>, ts: seq<TaskId>, choices: seq<Choice>, k: nat, n: string)
    requires IsInterleaving(gs, ts, choices) && k < |gs| && '$' !in n && forall j | 0 <= j <= k :: !Overlap(gs[j].tasks, n)
    ensures RaceOk(gs[k].tasks, gs[k].m.t, n)
  {
    hide LockInv, Starts, RaceOk, Overlap, Moves;
    if k == 0 {
      StartRace(gs[0], n);
    } else {
      RunRace(gs, ts, choices, k - 1, n);
      RunLocks(gs, ts, choices, k - 1);
      MoveRace(gs[k - 1], gs[k], ts[k - 1], choices[k - 1], n);
    }
  }

  /** As long as no two workers are about to add an ordinary name at the same time, it has one live topic at most, which the name stands
      for or which is being added, whatever else is added, removed or subscribed meanwhile. */
  lemma {:induction false} OneTopicPerName(gs: seq<Global>, ts: seq<TaskId>, choices: seq<Choice>, k: nat, n: string)
    requires IsInterleaving(gs, ts, choices) && k < |gs| && '$' !in n && forall j | 0 <= j <= k :: !Overlap(gs[j].tasks, n)
    ensures !Twins(gs[k].m.t, n)
    ensures forall i: TopicIdx | LiveUnder(gs[k].m.t, n, i) ::
      Lookup(gs[k].m.t.names, n) == Some(i) || exists a :: a in gs[k].tasks && Placed(gs[k].tasks[a], n, i)
  {
    hide IsInterleaving, Overlap, Placed;
    RunRace(gs, ts, choices, k, n);
  }

  /** And while two of them are in between inserting the topic and entering the name, there are two live topics of that name. */
  lemma {:induction false} PlacedTwins(gs: seq<Global>, ts: seq<TaskId>, choices: seq<Choice>, k: nat, n: string, a: TaskId, b: TaskId, i: TopicIdx, h: TopicIdx)
    requires IsInterleaving(gs, ts, choices) && k < |gs| && a in gs[k].tasks && b in gs[k].tasks && a != b
    requires Placed(gs[k].tasks[a], n, i) && Placed(gs[k].tasks[b], n, h)
    ensures i != h && LiveUnder(gs[k].m.t, n, i) && LiveUnder(gs[k].m.t, n, h)
  {
    RunLocks(gs, ts, choices, k);
    hide IsInterleaving, LocksOk, IdsOk, BoundOk, Findable, NamesOk, FailedOk, ListedUsed, ListedOk, SubProgress, Accounted;
    assert Progress(gs[k].tasks[a], gs[k].m) && Progress(gs[k].tasks[b], gs[k].m);
  }

  // ---- two topics of one name ----

  lemma {:induction false} AddLists(gs: seq<Global>, ts: seq<TaskId>, choices: seq<Choice>, a: TaskId, n: string, i: TopicIdx)
    returns (gs': seq<Global>, ts': seq<TaskId>, choices': seq<Choice>)
    requires IsInterleaving(gs, ts, choices) && Alone(gs[|ts|], a) && gs[|ts|].tasks[a] == Add({}, n, i, AWantList)
    ensures IsInterleaving(gs', ts', choices') && gs <= gs' && |gs'| == |ts'| + 1
    ensures var g, g' := gs[|ts|], gs'[|ts'|];
      Alone(g', a) && g'.tasks == g.tasks[a := DONE] && g'.m == g.m.(t := g.m.t.(lists := g.m.t.lists[i := {}]))
  {
    hide IsInterleaving, Alone, SubAct, UnsubAct, SendAct, RemoveAct, SetAct, OtherAct;
    gs', ts', choices' := Solo(gs, ts, choices, a, Go);
    gs', ts', choices' := Solo(gs', ts', choices', a, Go);
  }

  lemma {:induction false} BothCheck() returns (gs: seq<Global>, ts: seq<TaskId>, choices: seq<Choice>)
    ensures IsInterleaving(gs, ts, choices) && |gs| == |ts| + 1 && Alone(gs[|ts|], 1) && gs[|ts|].m == Quiet().m
    ensures gs[|ts|].tasks == map[1 := Add({}, "b", 0, AWantTopics), 2 := Add({}, "b", 0, AWantTopics), 3 := DONE]
  {
    hide IsInterleaving, Alone;
    QuietStarts();
    gs, ts, choices := AddChecks([Quiet()], [], [], 1, "b");
    Yields(gs[|ts|], 1, 2);
    gs, ts, choices := AddChecks(gs, ts, choices, 2, "b");
    Yields(gs[|ts|], 2, 1);
  }

  lemma {:induction false} BothPlace() returns (gs: seq<Global>, ts: seq<TaskId>, choices: seq<Choice>)
    ensures IsInterleaving(gs, ts, choices) && |gs| == |ts| + 1 && Alone(gs[|ts|], 1)
    ensures gs[|ts|].tasks == map[1 := Add({}, "b", 1, AWantCount), 2 := Add({}, "b", 2, AWantCount), 3 := DONE]
    ensures gs[|ts|].m.t == TopicShare({0, 1, 2}, map[0 := "a", 1 := "b", 2 := "b"], map["a" := 0], map[0 := {}], 3, {0}, {})
  {
    hide IsInterleaving, Alone;
    gs, ts, choices := BothCheck();
    gs, ts, choices := AddTakesId(gs, ts, choices, 1, "b");
    Yields(gs[|ts|], 1, 2);
    gs, ts, choices := AddTakesId(gs, ts, choices, 2, "b");
    Yields(gs[|ts|], 2, 1);
  }

  lemma {:induction false} OneDone() returns (gs: seq<Global>, ts: seq<TaskId>, choices: seq<Choice>)
    ensures IsInterleaving(gs, ts, choices) && |gs| == |ts| + 1 && Alone(gs[|ts|], 2)
    ensures gs[|ts|].tasks == map[1 := DONE, 2 := Add({}, "b", 2, AWantCount), 3 := DONE]
    ensures gs[|ts|].m.t == TopicShare({0, 1, 2}, map[0 := "a", 1 := "b", 2 := "b"], map["a" := 0, "b" := 1], map[0 := {}, 1 := {}], 3, {0, 1}, {})
  {
    hide IsInterleaving, Alone;
    gs, ts, choices := BothPlace();
    gs, ts, choices := AddNames(gs, ts, choices, 1, "b", 1);
    gs, ts, choices := AddLists(gs, ts, choices, 1, "b", 1);
    Yields(gs[|ts|], 1, 2);
  }

  /** It happens: two workers add one name, and when both are done two topics of that name are live, with a list each; the name stands for
      the second. */
  lemma {:induction false} TwinsHappen() returns (gs: seq<Global>, ts: seq<TaskId>, choices: seq<Choice>)
    ensures IsInterleaving(gs, ts, choices) && gs[|ts|].tasks == map[1 := DONE, 2 := DONE, 3 := DONE]
    ensures var t := gs[|ts|].m.t;
      LiveUnder(t, "b", 1) && LiveUnder(t, "b", 2) && 1 in t.lists && 2 in t.lists && Lookup(t.names, "b") == Some(2)
  {
    hide IsInterleaving, Alone;
    gs, ts, choices := OneDone();
    gs, ts, choices := AddNames(gs, ts, choices, 2, "b", 2);
    gs, ts, choices := AddLists(gs, ts, choices, 2, "b", 2);
  }
}
