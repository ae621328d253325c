/** src/spec: topics, subscriptions and messages. */
module Protocol {
  import opened Basics

  type TopicIdx = nat
  type SubIdx = nat
  type ClientIdx = nat
  type PubUID = u32
  type SubUID = u32

  // ---- values ----

  /** A value and the name of its type, as `get_type().stringify()` gives it. */
  datatype FrcValue = FrcValue(kind: string, data: seq<int>)

  datatype TimestampedValue = TimestampedValue(timestamp: nat, value: FrcValue)

  /** What a cache does with an arriving value: only a strictly newer one replaces. */
  function Replace(cached: Option<TimestampedValue>, v: TimestampedValue): Option<TimestampedValue> {
    if cached.None? || cached.value.timestamp < v.timestamp then Some(v) else cached
  }

  /** The cache after values arrived in this order. */
  function Newest(vs: seq<TimestampedValue>): Option<TimestampedValue> {
    if vs == [] then None else Replace(Newest(vs[..|vs| - 1]), vs[|vs| - 1])
  }

  // ---- topics ----

  datatype PublishProperties = PublishProperties(persistent: Option<bool>, retained: Option<bool>)

  const DEFAULT_PROPERTIES := PublishProperties(None, None)

  datatype Topic = Topic(name: string, kind: string, properties: Option<PublishProperties>) {
    predicate HasImplicitPublisher() {
      && properties.Some?
      && (properties.value.retained == Some(true) || properties.value.persistent == Some(true))
    }
  }

  function NewMeta(name: string): Topic {
    Topic(name, "raw", None)
  }

  function PubMeta(name: string): string { "$pub$" + name }

  function SubMeta(name: string): string { "$sub$" + name }

  function ClientPub(name: string): string { "$clientpub$" + name }

  function ClientSub(name: string): string { "$clientsub$" + name }

  // ---- subscriptions ----

  datatype SubscriptionOptions = SubscriptionOptions(all: Option<bool>, topicsOnly: Option<bool>, prefix: Option<bool>)

  const DEFAULT_OPTIONS := SubscriptionOptions(None, None, None)

  datatype Subscription = Subscription(subuid: i32, topics: set<string>, options: Option<SubscriptionOptions>) {

    function Options(): SubscriptionOptions {
      UnwrapOr(options, DEFAULT_OPTIONS)
    }

    predicate CaresAbout(topic: string) {
      if UnwrapOr(Options().prefix, false) then
        exists pattern | pattern in topics :: StartsWith(topic, pattern)
      else
        exists name | name in topics :: name == topic
    }

    predicate WantsAll() {
      UnwrapOr(Options().all, false)
    }

    predicate TopicsOnly() {
      UnwrapOr(Options().topicsOnly, false)
    }
  }

  // ---- messages ----

  datatype PublishTopic = PublishTopic(name: string, pubuid: PubUID, kind: string, properties: Option<PublishProperties>)

  datatype Announce = Announce(name: string, id: TopicIdx, kind: string, pubuid: Option<i32>, properties: PublishProperties)

  datatype Identity = Identity(addr: string, name: string)

  datatype NTMessage =
    | Publish(publish: PublishTopic)
    | Unpublish(pubuid: PubUID)
    | Subscribe(subscription: Subscription)
    | Unsubscribe(subuid: i32)
    | SetProperties(name: string, update: PublishProperties)
    | Announcement(announce: Announce)
    | UnAnnounce(topicName: string, id: TopicIdx)
    | Properties(propertiesOf: string, ack: Option<bool>)
    | Close(identity: Identity)

  /** One websocket message. A binary message is a run of encoded `(topic id, value)` pairs. */
  datatype Message =
    | Text(msgs: seq<NTMessage>)
    | Binary(values: seq<(TopicIdx, TimestampedValue)>)
}
