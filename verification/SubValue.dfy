/** src/server/util.rs: values waiting to be sent to one subscription, and fresh ids. */
module SubValue {
  import opened Basics
  import opened Protocol

  /** `All` keeps every pending value of a topic, `One` the latest only. */
  datatype StoredSubValue =
    | All(queues: map<TopicIdx, seq<TimestampedValue>>)
    | One(latest: map<TopicIdx, TimestampedValue>)
  {
    function AddValue(topic: TopicIdx, v: TimestampedValue): StoredSubValue {
      match this
      case All(queues) => All(queues[topic := GetOr(queues, topic, []) + [v]])
      case One(latest) => One(latest[topic := v])
    }

    function Topics(): set<TopicIdx> {
      match this
      case All(queues) => queues.Keys
      case One(latest) => latest.Keys
    }

    /** The values waiting for one topic, oldest first. */
    function Pending(topic: TopicIdx): seq<TimestampedValue> {
      match this
      case All(queues) => GetOr(queues, topic, [])
      case One(latest) => if topic in latest then [latest[topic]] else []
    }

    /** What `take_values` returns. */
    function Taken(): map<TopicIdx, seq<TimestampedValue>> {
      map i | i in Topics() :: Pending(i)
    }

    /** What `take_values` leaves behind. */
    function Emptied(): StoredSubValue {
      match this
      case All(_) => All(map[])
      case One(_) => One(map[])
    }
  }

  datatype Counter = Counter(topicIdx: TopicIdx, subIdx: SubIdx, clientIdx: ClientIdx) {
    function NextTopic(): Counter { this.(topicIdx := topicIdx + 1) }
    function NextSub(): Counter { this.(subIdx := subIdx + 1) }
    function NextClient(): Counter { this.(clientIdx := clientIdx + 1) }
  }
}
