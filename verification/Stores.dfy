/** The loops and branches of src/server/util.rs and src/spec/metatopic.rs that the server runs on the values it owns. */
module Stores {
  import opened Basics
  import opened MetaTopic
  import opened Protocol
  import opened SubValue

  method AddValue(store: StoredSubValue, topic: TopicIdx, v: TimestampedValue) returns (after: StoredSubValue)
    ensures after == store.AddValue(topic, v)
  {
    match store
    case All(queues) =>
      if topic in queues {
        after := All(queues[topic := queues[topic] + [v]]);
      } else {
        assert [] + [v] == [v];
        after := All(queues[topic := [v]]);
      }
    case One(latest) =>
      after := One(latest[topic := v]);
  }

  method TakeValues(store: StoredSubValue) returns (taken: map<TopicIdx, seq<TimestampedValue>>, left: StoredSubValue)
    ensures taken.Keys == store.Topics() && forall i | i in taken :: taken[i] == store.Pending(i)
    ensures left == store.Emptied() && left.Topics() == {}
  {
    match store
    case All(queues) =>
      taken, left := queues, All(map[]);
    case One(latest) =>
      taken, left := map[], One(map[]);
      var rest := latest.Keys;
      while rest != {}
        invariant rest <= latest.Keys
        invariant taken.Keys == latest.Keys - rest
        invariant forall i | i in taken :: taken[i] == [latest[i]]
        decreases rest
      {
        var i :| i in rest;
        taken, rest := taken[i := [latest[i]]], rest - {i};
      }
  }

  /** `retain`: what is left of `xs` without the elements of `ys`. */
  method Retain<T(==)>(xs: seq<T>, ys: seq<T>) returns (kept: seq<T>)
    ensures kept == Without(xs, ys)
  {
    kept := [];
    for k := 0 to |xs|
      invariant kept == Without(xs[..k], ys)
    {
      assert xs[..k + 1][..k] == xs[..k];
      if xs[k] !in ys {
        kept := kept + [xs[k]];
      }
    }
    assert xs[..|xs|] == xs;
  }

  method Reduce(value: MetaTopicValue, other: MetaTopicValue) returns (after: MetaTopicValue)
    ensures after == value.Reduce(other)
  {
    after := value;
    match (value, other)
    case (ClientPublisher(xs), ClientPublisher(ys)) =>
      var kept := Retain(xs, ys);
      after := ClientPublisher(kept);
    case (ServerPublisher(xs), ServerPublisher(ys)) =>
      var kept := Retain(xs, ys);
      after := ServerPublisher(kept);
    case (Client(xs), Client(ys)) =>
      var kept := Retain(xs, ys);
      after := Client(kept);
    case _ =>
  }
}
