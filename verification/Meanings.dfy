/** What the small functions mean, field by field: casts, options, matching, initial counts, client names and reserved names. */
module Meanings {
  import opened Basics
  import opened BiMap
  import opened Protocol
  import opened MetaTopic
  import opened SubValue
  import opened ServerModel

  // ---- casts ----

  /** Both casts keep the value modulo 2^32, and undo each other. */
  lemma {:induction false} Casts(x: i32, y: u32)
    ensures (AsU32(x) - x) % 0x1_0000_0000 == 0 && (AsI32(y) - y) % 0x1_0000_0000 == 0
    ensures AsI32(AsU32(x)) == x && AsU32(AsI32(y)) == y
  {}

  // ---- subscriptions ----

  predicate Has(option: Option<bool>) {
    option == Some(true)
  }

  /** The subscription asks for this name: it lists the name, or, where the prefix option is set, a prefix of it. */
  ghost predicate AsksFor(sub: Subscription, name: string) {
    if sub.options.Some? && Has(sub.options.value.prefix) then exists k | 0 <= k <= |name| :: name[..k] in sub.topics
    else name in sub.topics
  }

  lemma {:induction false} MatchingMeans(sub: Subscription, name: string)
    ensures sub.CaresAbout(name) <==> AsksFor(sub, name)
  {
    if pattern :| pattern in sub.topics && StartsWith(name, pattern) {
      assert name[..|pattern|] == pattern;
    }
    if k :| 0 <= k <= |name| && name[..k] in sub.topics {
      assert StartsWith(name, name[..k]);
    }
  }

  /** Absent options count as not set. */
  lemma {:induction false} OptionsMean(sub: Subscription)
    ensures sub.WantsAll() <==> sub.options.Some? && Has(sub.options.value.all)
    ensures sub.TopicsOnly() <==> sub.options.Some? && Has(sub.options.value.topicsOnly)
    ensures NewStore(sub) == if sub.options.Some? && Has(sub.options.value.all) then All(map[]) else One(map[])
  {}

  // ---- topics ----

  predicate Outlives(properties: Option<PublishProperties>) {
    properties.Some? && (Has(properties.value.retained) || Has(properties.value.persistent))
  }

  /** A topic counts one publisher more than it has if it was published retained or persistent. */
  lemma {:induction false} InitialCount(st: State, topic: Topic)
    ensures var r, i := Alloc(st, topic), st.counters.topicIdx;
      i in r.p.pubCount && r.p.pubCount[i] == if Outlives(topic.properties) then 2 else 1
  {
    hide SubsUntouched, SeatsUntouched;
  }

  // ---- reserved names ----

  lemma {:induction false} ReservedNamesMean(name: string)
    ensures PubMeta(name) == "$pub$" + name && SubMeta(name) == "$sub$" + name
    ensures ClientPub(name) == "$clientpub$" + name && ClientSub(name) == "$clientsub$" + name
    ensures NewMeta(name) == Topic(name, "raw", None)
  {}

  /** A new server: three reserved names, their topics without subscribers, and the server's own client, which has no output. */
  lemma {:induction false} NewServer(checks: bool)
    ensures var st := Init(checks);
      && st.overflowChecks == checks && st.counters == Counter(3, 0, 1)
      && st.t.topics == map[0 := Topic("$clients", "raw", None), 1 := Topic("$serversub", "raw", None), 2 := Topic("$serverpub", "raw", None)]
      && st.t.topicMap == map["$clients" := 0, "$serversub" := 1, "$serverpub" := 2]
      && st.t.topicSubs == map[0 := [], 1 := [], 2 := []] && st.t.topicValues == map[]
      && st.p == PubTables(map[0 := 1, 1 := 1, 2 := 1], map[], map[])
      && st.c.clients.Keys == {0} && !st.c.clients[0].hasOutput && st.c.clientMap == map[] && st.c.outboxes == map[]
      && st.c.clients[0].pubs.fwd == map[] && st.c.clients[0].subs.fwd == map[] && st.c.clients[0].announced == {}
      && st.s == SubTables(map[], map[], map[])
  {
    hide SubsUntouched, SeatsUntouched;
  }

  // ---- client names ----

  /** The value of a decimal numeral. */
  function Numeral(s: string): int {
    if s == "" then 0 else 10 * Numeral(s[..|s| - 1]) + (s[|s| - 1] as int - '0' as int)
  }

  /** Numbers are written in decimal, without leading zeros. */
  lemma {:induction false} DecimalMeans(n: nat)
    ensures Numeral(Decimal(n)) == n && Decimal(n) != "" && (n > 0 ==> Decimal(n)[0] != '0')
    ensures forall k | 0 <= k < |Decimal(n)| :: '0' <= Decimal(n)[k] <= '9'
  {
    var d := n % 10;
    var digit := ["0123456789"[d]];
    DigitMeans(d);
    if n >= 10 {
      DecimalMeans(n / 10);
      assert Decimal(n) == Decimal(n / 10) + digit && (Decimal(n / 10) + digit)[..|Decimal(n / 10)|] == Decimal(n / 10);
    } else {
      assert Decimal(n) == digit && digit[..0] == "";
    }
  }

  lemma {:induction false} DigitMeans(d: nat)
    requires d < 10
    ensures "0123456789"[d] as int - '0' as int == d && '0' <= "0123456789"[d] <= '9'
  {
    assert d in {0, 1, 2, 3, 4, 5, 6, 7, 8, 9};
  }

  /** One name occurs in another. */
  ghost predicate Occurs(part: string, whole: string) {
    exists before: string, after: string :: whole == before + part + after
  }

  lemma {:induction false} ContainsMeans(s: string, part: string)
    ensures Contains(s, part) <==> Occurs(part, s)
  {
    if i :| 0 <= i <= |s| && StartsWith(s[i..], part) {
      assert s == s[..i] + part + s[i..][|part|..];
    }
    if before: string, after: string :| s == before + part + after {
      assert s[|before|..] == part + after;
      assert StartsWith(s[|before|..], part);
    }
  }

  /** The connected clients in whose names this one occurs. */
  ghost function NamedLike(clients: map<ClientIdx, ConnectedClient>, name: string): set<ClientIdx> {
    set c | c in clients && Occurs(name, clients[c].identity.name)
  }

  /** A newcomer keeps its name if it occurs in no connected client's name; else the number of those is added. */
  lemma {:induction false} RenamedMeans(clients: map<ClientIdx, ConnectedClient>, identity: Identity)
    ensures var n, r := |NamedLike(clients, identity.name)|, RenamedIdentity(clients, identity);
      r == if n == 0 then identity else Identity(identity.addr, identity.name + "@" + Decimal(n))
  {
    forall c | c in clients { ContainsMeans(clients[c].identity.name, identity.name); }
    assert NamedLike(clients, identity.name) == set c | c in clients && Contains(clients[c].identity.name, identity.name);
    hide Contains, Occurs, Decimal;
  }
}
