/** Properties of one client's output channel: what was announced, and in which order. */
module Mailbox {
  import opened Basics
  import opened Protocol

  predicate AnnouncesId(n: NTMessage, i: TopicIdx) {
    n.Announcement? && n.announce.id == i
  }

  predicate Announces(m: Message, i: TopicIdx) {
    m.Text? && exists j | 0 <= j < |m.msgs| :: AnnouncesId(m.msgs[j], i)
  }

  /** Some message announces topic id `i`. */
  predicate Announced(ms: seq<Message>, i: TopicIdx) {
    exists k | 0 <= k < |ms| :: Announces(ms[k], i)
  }

  /** The announcement carries the name its id was allocated for. */
  predicate Truthful(n: NTMessage, names: seq<string>) {
    n.Announcement? && n.announce.id < |names| && n.announce.name == names[n.announce.id]
  }

  /** Text messages hold truthful announcements only; values refer to announced topics only. */
  ghost predicate CleanMessage(before: seq<Message>, m: Message, names: seq<string>) {
    match m
    case Text(msgs) => forall j | 0 <= j < |msgs| :: Truthful(msgs[j], names)
    case Binary(values) => forall j | 0 <= j < |values| :: Announced(before, values[j].0)
  }

  ghost predicate Clean(ms: seq<Message>, names: seq<string>) {
    forall k | 0 <= k < |ms| :: CleanMessage(ms[..k], ms[k], names)
  }

  predicate IsReply(n: NTMessage, i: TopicIdx) {
    AnnouncesId(n, i) && n.announce.pubuid.Some?
  }

  function RepliesIn(msgs: seq<NTMessage>, i: TopicIdx): nat {
    if msgs == [] then 0
    else RepliesIn(msgs[..|msgs| - 1], i) + if IsReply(msgs[|msgs| - 1], i) then 1 else 0
  }

  /** How many announcements of topic id `i` answer a publish. */
  function Replies(ms: seq<Message>, i: TopicIdx): nat {
    if ms == [] then 0
    else Replies(ms[..|ms| - 1], i) + if ms[|ms| - 1].Text? then RepliesIn(ms[|ms| - 1].msgs, i) else 0
  }

  lemma {:induction false} AnnouncedGrows(ms: seq<Message>, more: seq<Message>)
    ensures forall i | Announced(ms, i) :: Announced(ms + more, i)
  {
    forall i | Announced(ms, i) ensures Announced(ms + more, i) {
      var k :| 0 <= k < |ms| && Announces(ms[k], i);
      assert (ms + more)[k] == ms[k];
    }
  }

  lemma {:induction false} AnnouncedLast(ms: seq<Message>, m: Message, i: TopicIdx)
    requires Announces(m, i)
    ensures Announced(ms + [m], i)
  {
    assert (ms + [m])[|ms|] == m;
  }

  lemma {:induction false} CleanAppend(ms: seq<Message>, m: Message, names: seq<string>)
    requires Clean(ms, names) && CleanMessage(ms, m, names)
    ensures Clean(ms + [m], names)
  {
    var all := ms + [m];
    forall k | 0 <= k < |all| ensures CleanMessage(all[..k], all[k], names) {
      if k < |ms| {
        assert all[..k] == ms[..k];
      } else {
        assert all[..k] == ms;
      }
    }
  }

  lemma {:induction false} CleanWithMoreNames(ms: seq<Message>, names: seq<string>, more: seq<string>)
    requires Clean(ms, names)
    ensures Clean(ms, names + more)
  {
    forall k | 0 <= k < |ms| ensures CleanMessage(ms[..k], ms[k], names + more) {
      assert CleanMessage(ms[..k], ms[k], names);
    }
  }

  lemma {:induction false} RepliesAppend(ms: seq<Message>, m: Message, i: TopicIdx)
    ensures Replies(ms + [m], i) == Replies(ms, i) + if m.Text? then RepliesIn(m.msgs, i) else 0
  {
    assert (ms + [m])[..|ms|] == ms;
  }

  lemma {:induction false} NoReplies(msgs: seq<NTMessage>, i: TopicIdx)
    requires forall j | 0 <= j < |msgs| :: msgs[j].Announcement? && msgs[j].announce.pubuid.None?
    ensures RepliesIn(msgs, i) == 0
  {
    if msgs != [] {
      NoReplies(msgs[..|msgs| - 1], i);
    }
  }
}
