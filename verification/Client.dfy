/** src/client/inner.rs: the client object, method by method what the model says. */
module Client {
  import opened Basics
  import opened Protocol
  import opened ClientModel

  class InnerClient {
    var announcedTopics: map<int, Topic>
    var subscriptions: map<i32, InternalSub>
    var errors: seq<ClientError>

    ghost function State(): ClientState
      reads this
    {
      ClientState(announcedTopics, subscriptions, errors)
    }

    constructor (subs: map<i32, InternalSub>)
      ensures State() == Opened(subs, [])
    {
      announcedTopics, subscriptions, errors := map[-1 := TIME_TOPIC], subs, [];
    }

    method LogError(e: ClientError)
      modifies `errors
      ensures State() == Fail(old(State()), e)
    {
      errors := errors + [e];
    }

    /** Visits every subscription and drops those that are gone or do not take the value. */
    method SendValueToSubscriber(topic: Topic, timestamp: u32, kind: string, data: seq<int>)
      modifies `subscriptions
      ensures State() == old(State()).(subs := Tell(old(subscriptions), topic, MessageData(topic.name, timestamp, kind, data)))
    {
      var message := MessageData(topic.name, timestamp, kind, data);
      ghost var before := subscriptions;
      var rest := subscriptions.Keys;
      while rest != {}
        invariant rest <= before.Keys
        invariant forall u | u in rest :: u in subscriptions && subscriptions[u] == before[u]
        invariant forall u :: u in subscriptions && u !in rest <==> u in before && u !in rest && TellSub(before[u], topic, message).Some?
        invariant forall u | u in subscriptions && u !in rest :: subscriptions[u] == TellSub(before[u], topic, message).value
        decreases rest
      {
        var u :| u in rest;
        var sub := subscriptions[u];
        var retained := false;
        if sub.data.Some? {
          if !sub.MatchesTopic(topic) {
            retained := true;
          } else if sub.room > 0 {
            subscriptions := subscriptions[u := sub.(room := sub.room - 1, inbox := sub.inbox + [message])];
            retained := true;
          }
        }
        if !retained {
          subscriptions := subscriptions - {u};
        }
        rest := rest - {u};
      }
    }

    method HandleWireValue(w: WireValue)
      modifies this
      ensures State() == HandleValue(old(State()), w)
    {
      if w.length != 4 {
        LogError(WrongLength);
        return;
      }
      if w.id.Some? && w.timestamp.Some? {
        var id := Truncated(w.id.value);
        if id >= 0 {
          match w.code
          case NoCode =>
          case UnknownCode => LogError(InvalidType);
          case Code(kind) =>
            if id in announcedTopics {
              SendValueToSubscriber(announcedTopics[id], w.timestamp.value % 0x1_0000_0000, kind, w.data);
            } else {
              LogError(NotAnnounced(id));
            }
        } else if id != -1 {
          LogError(InvalidId);
        }
      }
    }

    method HandleNTMessage(n: NTMessage)
      modifies this
      ensures State() == HandleText(old(State()), n)
    {
      match n
      case Announcement(a) =>
        if a.id !in announcedTopics {
          announcedTopics := announcedTopics[a.id := Topic(a.name, a.kind, Some(a.properties))];
        }
      case UnAnnounce(_, id) =>
        announcedTopics := announcedTopics - {id};
      case Properties(_, _) =>
      case _ => LogError(InvalidMessage);
    }

    /** The two loops of `handle_message`. */
    method Handle(m: Inbound)
      modifies this
      ensures State() == HandleMessage(old(State()), m)
    {
      ghost var before := State();
      match m
      case InText(msgs) =>
        assert msgs[..|msgs|] == msgs;
        for k := 0 to |msgs|
          invariant State() == HandleTexts(before, msgs[..k])
        {
          assert msgs[..k + 1][..k] == msgs[..k];
          HandleNTMessage(msgs[k]);
        }
      case InBinary(values) =>
        assert values[..|values|] == values;
        for k := 0 to |values|
          invariant State() == HandleValues(before, values[..k])
        {
          assert values[..k + 1][..k] == values[..k];
          HandleWireValue(values[k]);
        }
    }

    /** The user of a subscription takes the oldest value out of its channel, if there is one. */
    method TryNext(u: i32) returns (message: Option<MessageData>)
      modifies `subscriptions
      ensures State() == HandleItem(old(State()), Next(u))
      ensures u in old(subscriptions) && old(subscriptions)[u].taken < |old(subscriptions)[u].inbox| ==>
        && message == Some(old(subscriptions)[u].inbox[old(subscriptions)[u].taken])
        && subscriptions == old(subscriptions)[u := old(subscriptions)[u].(taken := old(subscriptions)[u].taken + 1, room := old(subscriptions)[u].room + 1)]
      ensures !(u in old(subscriptions) && old(subscriptions)[u].taken < |old(subscriptions)[u].inbox|) ==>
        message == None && subscriptions == old(subscriptions)
      ensures (if message.Some? then [message.value] else []) == Handed(old(State()), Next(u), u)
    {
      message := None;
      if u in subscriptions {
        var sub := subscriptions[u];
        if sub.taken < |sub.inbox| {
          message := Some(sub.inbox[sub.taken]);
          subscriptions := subscriptions[u := sub.(taken := sub.taken + 1, room := sub.room + 1)];
        }
      }
    }

    /** Messages and values arrive one by one, and users receive in between; what the user of `u` is handed. */
    method HandleItems(items: seq<Item>, u: i32) returns (handed: seq<MessageData>)
      modifies this
      ensures State() == FoldItems(old(State()), items)
      ensures handed == HandedBy(old(State()), items, u)
    {
      ghost var before := State();
      assert items[..|items|] == items;
      handed := [];
      for k := 0 to |items|
        invariant State() == FoldItems(before, items[..k]) && handed == HandedBy(before, items[..k], u)
      {
        assert items[..k + 1][..k] == items[..k];
        match items[k]
        case Heard(msg) => HandleNTMessage(msg);
        case Carried(value) => HandleWireValue(Encoded(value.0, value.1));
        case Next(w) =>
          var message := TryNext(w);
          if w == u && message.Some? {
            handed := handed + [message.value];
          }
      }
    }

    /** A connection delivers the messages of the server in order. */
    method HandleAll(ms: seq<Message>)
      modifies this
      ensures State() == Fold(old(State()), ms)
    {
      ghost var before := State();
      assert ms[..|ms|] == ms;
      for k := 0 to |ms|
        invariant State() == Fold(before, ms[..k])
      {
        assert ms[..k + 1][..k] == ms[..k];
        Handle(Arriving(ms[k]));
      }
    }
  }
}
