/** The `One` form of a pending-value store refines the `All` form, over every sequence of calls. */
module Refinement {
  import opened Basics
  import opened Protocol
  import opened SubValue

  datatype StoreOp = Add(topic: TopicIdx, value: TimestampedValue) | Take

  /** A store after some calls, and what its `take_values` calls returned so far. */
  datatype StoreRun = StoreRun(store: StoredSubValue, drains: seq<map<TopicIdx, seq<TimestampedValue>>>)

  function Apply(r: StoreRun, op: StoreOp): StoreRun {
    match op
    case Add(i, v) => r.(store := r.store.AddValue(i, v))
    case Take => StoreRun(r.store.Emptied(), r.drains + [r.store.Taken()])
  }

  function RunStore(start: StoredSubValue, ops: seq<StoreOp>): StoreRun {
    if ops == [] then StoreRun(start, []) else Apply(RunStore(start, ops[..|ops| - 1]), ops[|ops| - 1])
  }

  /** Same topics, and of each queue the last element. */
  predicate LastOfEach(all: map<TopicIdx, seq<TimestampedValue>>, one: map<TopicIdx, TimestampedValue>) {
    && all.Keys == one.Keys
    && (forall i | i in all :: all[i] != [] && one[i] == all[i][|all[i]| - 1])
  }

  /** The drain of the `All` form with every sequence cut to its last element. */
  function Cut(all: map<TopicIdx, seq<TimestampedValue>>): map<TopicIdx, seq<TimestampedValue>> {
    map i | i in all :: if all[i] == [] then [] else [all[i][|all[i]| - 1]]
  }

  predicate Refines(all: StoreRun, one: StoreRun) {
    && all.store.All? && one.store.One? && LastOfEach(all.store.queues, one.store.latest)
    && |all.drains| == |one.drains|
    && (forall k | 0 <= k < |all.drains| :: one.drains[k] == Cut(all.drains[k]) && forall i | i in all.drains[k] :: all.drains[k][i] != [])
  }

  lemma {:induction false} ApplyRefines(all: StoreRun, one: StoreRun, op: StoreOp)
    requires Refines(all, one)
    ensures Refines(Apply(all, op), Apply(one, op))
  {
    if op.Take? {
      assert one.store.Taken() == Cut(all.store.Taken());
    }
  }

  /** Run the same calls on both forms: at every point they hold the same topics, the `One` form the last element of each
      `All` queue, and every drain of the `One` form is the `All` drain cut to the last elements. */
  lemma {:induction false} OneRefinesAll(ops: seq<StoreOp>)
    ensures Refines(RunStore(All(map[]), ops), RunStore(One(map[]), ops))
  {
    if ops != [] {
      OneRefinesAll(ops[..|ops| - 1]);
      ApplyRefines(RunStore(All(map[]), ops[..|ops| - 1]), RunStore(One(map[]), ops[..|ops| - 1]), ops[|ops| - 1]);
      hide Refines, Apply;
    }
  }

  // ---- what the `All` form keeps ----

  function Added(ops: seq<StoreOp>, i: TopicIdx): seq<TimestampedValue> {
    if ops == [] then []
    else
      var last := ops[|ops| - 1];
      Added(ops[..|ops| - 1], i) + if last.Add? && last.topic == i then [last.value] else []
  }

  function Drained(drains: seq<map<TopicIdx, seq<TimestampedValue>>>, i: TopicIdx): seq<TimestampedValue> {
    if drains == [] then [] else Drained(drains[..|drains| - 1], i) + GetOr(drains[|drains| - 1], i, [])
  }

  /** Drains and pending values together are the values added, in order. */
  lemma {:induction false} AllKeepsEverything(ops: seq<StoreOp>, i: TopicIdx)
    ensures var r := RunStore(All(map[]), ops); r.store.All? && Drained(r.drains, i) + r.store.Pending(i) == Added(ops, i)
  {
    if ops != [] {
      var before, last := RunStore(All(map[]), ops[..|ops| - 1]), ops[|ops| - 1];
      AllKeepsEverything(ops[..|ops| - 1], i);
      if last.Take? {
        assert (before.drains + [before.store.Taken()])[..|before.drains|] == before.drains;
        assert GetOr(before.store.Taken(), i, []) == before.store.Pending(i);
      }
    }
  }
}
