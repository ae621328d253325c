/** src/client/inner.rs: what a client makes of the messages it receives. */
module ClientModel {
  import opened Basics
  import opened Protocol

  datatype MessageData = MessageData(topicName: string, timestamp: u32, kind: string, data: seq<int>)

  /** src/spec/subscription.rs: a subscription as the client keeps it, and the user's channel. `data` is None once the user dropped
      it; `inbox` is what went into the channel so far, `taken` how much of it the user received, `room` what it still takes. */
  datatype InternalSub = InternalSub(data: Option<Subscription>, room: nat, inbox: seq<MessageData>, taken: nat) {

    /** The user's `try_next`: the oldest value in the channel, if there is one. */
    function TryNext(): (InternalSub, Option<MessageData>) {
      if taken < |inbox| then (this.(taken := taken + 1, room := room + 1), Some(inbox[taken])) else (this, None)
    }

    predicate MatchesTopic(topic: Topic) {
      && data.Some?
      && if data.value.options.Some? && UnwrapOr(data.value.options.value.prefix, false) then
           exists pattern | pattern in data.value.topics :: StartsWith(topic.name, pattern)
         else
           exists name | name in data.value.topics :: name == topic.name
    }
  }

  /** The type field of an encoded value. */
  datatype TypeCode = NoCode | UnknownCode | Code(kind: string)

  /** The array an encoded value decodes to. */
  datatype WireValue = WireValue(length: nat, id: Option<int>, timestamp: Option<nat>, code: TypeCode, data: seq<int>)

  datatype Inbound =
    | InText(msgs: seq<NTMessage>)
    | InBinary(values: seq<WireValue>)

  datatype ClientError =
    | WrongLength
    | NotAnnounced(id: i32)
    | InvalidType
    | InvalidId
    | InvalidMessage

  datatype ClientState = ClientState(announced: map<int, Topic>, subs: map<i32, InternalSub>, errors: seq<ClientError>)

  /** The cast `n as i32` of a 64-bit integer. */
  function Truncated(n: int): i32 {
    AsI32(n % 0x1_0000_0000)
  }

  const TIME_TOPIC := Topic("Time", "int", None)

  /** The state a new connection starts from. */
  function Opened(subs: map<i32, InternalSub>, errors: seq<ClientError>): ClientState {
    ClientState(map[-1 := TIME_TOPIC], subs, errors)
  }

  // ---- values ----

  /** What becomes of a subscription when a value arrives; None if it is not retained. */
  function TellSub(sub: InternalSub, topic: Topic, data: MessageData): Option<InternalSub> {
    if sub.data.None? then None
    else if sub.MatchesTopic(topic) then
      if sub.room > 0 then Some(sub.(room := sub.room - 1, inbox := sub.inbox + [data])) else None
    else Some(sub)
  }

  /** `send_value_to_subscriber` */
  function Tell(subs: map<i32, InternalSub>, topic: Topic, data: MessageData): map<i32, InternalSub> {
    map u | u in subs && TellSub(subs[u], topic, data).Some? :: TellSub(subs[u], topic, data).value
  }

  function Fail(cs: ClientState, e: ClientError): ClientState {
    cs.(errors := cs.errors + [e])
  }

  function HandleValue(cs: ClientState, w: WireValue): ClientState {
    if w.length != 4 then Fail(cs, WrongLength)
    else if w.id.None? || w.timestamp.None? then cs
    else
      var id := Truncated(w.id.value);
      if id >= 0 then
        match w.code
        case NoCode => cs
        case UnknownCode => Fail(cs, InvalidType)
        case Code(kind) =>
          if id in cs.announced then
            var topic := cs.announced[id];
            cs.(subs := Tell(cs.subs, topic, MessageData(topic.name, w.timestamp.value % 0x1_0000_0000, kind, w.data)))
          else Fail(cs, NotAnnounced(id))
      else if id == -1 then cs
      else Fail(cs, InvalidId)
  }

  function HandleValues(cs: ClientState, ws: seq<WireValue>): ClientState {
    if ws == [] then cs else HandleValue(HandleValues(cs, ws[..|ws| - 1]), ws[|ws| - 1])
  }

  // ---- text messages ----

  function HandleText(cs: ClientState, n: NTMessage): ClientState {
    match n
    case Announcement(a) =>
      if a.id in cs.announced then cs
      else cs.(announced := cs.announced[a.id := Topic(a.name, a.kind, Some(a.properties))])
    case UnAnnounce(_, id) => cs.(announced := cs.announced - {id})
    case Properties(_, _) => cs
    case _ => Fail(cs, InvalidMessage)
  }

  function HandleTexts(cs: ClientState, msgs: seq<NTMessage>): ClientState {
    if msgs == [] then cs else HandleText(HandleTexts(cs, msgs[..|msgs| - 1]), msgs[|msgs| - 1])
  }

  function HandleMessage(cs: ClientState, m: Inbound): ClientState {
    match m
    case InText(msgs) => HandleTexts(cs, msgs)
    case InBinary(values) => HandleValues(cs, values)
  }

  // ---- the channel from the server ----

  function Encoded(i: TopicIdx, v: TimestampedValue): WireValue {
    WireValue(4, Some(i), Some(v.timestamp), Code(v.value.kind), v.value.data)
  }

  function EncodedAll(values: seq<(TopicIdx, TimestampedValue)>): seq<WireValue> {
    seq(|values|, k requires 0 <= k < |values| => Encoded(values[k].0, values[k].1))
  }

  function Arriving(m: Message): Inbound {
    match m
    case Text(msgs) => InText(msgs)
    case Binary(values) => InBinary(EncodedAll(values))
  }

  /** The client after it handled all these messages of the server. */
  function Fold(cs: ClientState, ms: seq<Message>): ClientState {
    if ms == [] then cs else HandleMessage(Fold(cs, ms[..|ms| - 1]), Arriving(ms[|ms| - 1]))
  }

  // ---- one by one, with users receiving in between ----

  /** What can happen next: a message of a text arrives, a value arrives, or the user of a subscription asks for the next value. */
  datatype Item = Heard(msg: NTMessage) | Carried(value: (TopicIdx, TimestampedValue)) | Next(u: i32)

  function HandleItem(cs: ClientState, item: Item): ClientState {
    match item
    case Heard(msg) => HandleText(cs, msg)
    case Carried(value) => HandleValue(cs, Encoded(value.0, value.1))
    case Next(u) => if u in cs.subs then cs.(subs := cs.subs[u := cs.subs[u].TryNext().0]) else cs
  }

  function FoldItems(cs: ClientState, items: seq<Item>): ClientState {
    if items == [] then cs else HandleItem(FoldItems(cs, items[..|items| - 1]), items[|items| - 1])
  }

  /** What the user of `u` is handed. */
  function Handed(cs: ClientState, item: Item, u: i32): seq<MessageData> {
    if item == Next(u) && u in cs.subs && cs.subs[u].TryNext().1.Some? then [cs.subs[u].TryNext().1.value] else []
  }

  function HandedBy(cs: ClientState, items: seq<Item>, u: i32): seq<MessageData> {
    if items == [] then []
    else
      var front, last := items[..|items| - 1], items[|items| - 1];
      HandedBy(cs, front, u) + Handed(FoldItems(cs, front), last, u)
  }

  function ItemsIn(m: Message): seq<Item> {
    match m
    case Text(msgs) => seq(|msgs|, k requires 0 <= k < |msgs| => Heard(msgs[k]))
    case Binary(values) => seq(|values|, k requires 0 <= k < |values| => Carried(values[k]))
  }

  /** What arrives with these messages, piece by piece. */
  function ItemsOf(ms: seq<Message>): seq<Item> {
    if ms == [] then [] else ItemsOf(ms[..|ms| - 1]) + ItemsIn(ms[|ms| - 1])
  }

  /** The same without the users' part. */
  function Arrivals(items: seq<Item>): seq<Item> {
    if items == [] then []
    else
      var last := items[|items| - 1];
      Arrivals(items[..|items| - 1]) + if last.Next? then [] else [last]
  }
}
