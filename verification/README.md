# A model of the NetworkTables 4 server

This project models the publish/subscribe broker of the repository and proves what its tables, its
output channels and its clients can rely on, over every run.

The server spreads its truth over a dozen maps: topics, names, publisher counts, cached values,
subscriber lists, subscriptions, pending values, send times, client records, metatopics. Every handler
changes several of them, calls other handlers, and may leave early with an error after it changed some.
The project shows that they nevertheless agree at every exit, and what follows from that.

## How it is built

- `ServerModel` is the server's state as a value, with one transition function per handler, error exits
  included. A run is any finite sequence of handler calls and sending passes (`IsRun`). Hash tables may be
  iterated in any order: an order is an explicit argument of each transition that depends on one.
- `Server.InnerServer` is the server object. Its methods are the handlers, with the loops, early exits and
  in-place updates of the source, and each is proved to do to the object's fields what the transition
  function does to the state. `Runner` adds the message dispatch and the pass that sends pending values.
  `Runner.ContinuesRun` carries every theorem about runs over to the object.
- `Client.InnerClient` is the client object, `ClientModel` its fold; `Stores` holds the loops over the small values that
  the server owns.
- `Invariants` states what every reachable state satisfies, `Handlers` proves it. `Lockstep` and
  `FreeRuns` add what holds when published names contain no `$`, `Growth` what is never taken back.
- The state carries logs that no handler reads (values accepted, names allocated, subscriptions made).
  `History` proves that the logs are what the operations of the run say, so the theorems of `Delivery`,
  `Routing`, `TopicLives` and the others speak of operations and tables only.
- `Announcing`, `Greeting`, `MetaLists`, `Effects`, `ClientEffects` and `LockEffects` state what single operations do, field by field and
  without the transition functions' own helpers; `Meanings` does so for the small functions that these share.
- `Channels` reads a whole output channel off the operations of a run, and `EndToEnd` joins it with the client's
  fold: from a value the server accepts to the channel of a user, who may receive at any time.
- `Locks` is a second, finer model: subscribing, unsubscribing, the sending loop, adding and removing topics and setting
  values, interleaved at every mutex acquire and release, by any number of concurrent workers.

Everything but `Locks`, `Exposure` and `NameRaces` treats a handler call as one step. For the messages of clients that is what the source does:
one parser task handles them one at a time (src/server/runner.rs:63-192). It is a simplification in three places. A new
connection runs `connect_client`, with two calls of `add_topic`, in a task of its own (src/server/runner.rs:336-355), the sending
loop is a task, and publishing and setting values through the server's own handle (src/server/handles.rs:113-168) happens in the
caller's task. `Locks` says what that changes: `add_topic` inserts a name and its subscriber list under separate locks, and in
between a subscribe can meet the name without the list. Ids are unbounded here, while the source casts them to 32 bits; the theorems that need it
(those about the client) say that ids stay below 2^31. Channel sends and value encoding succeed; a send
appends to the client's outbox, and the server's own pseudo-client has none.

## What was found

- A disconnect removes the client's `$clientpub$` and `$clientsub$` metatopics with the procedure for ordinary topics, which
  fails for a topic whose own `$pub$` and `$sub$` names are not in use. So where published names contain no `$`, a disconnect of
  a known client never returns success: the first metatopic is taken out of the live topics, its name stays in use for the dead
  id, and the second metatopic stays live, for good (`Disconnects.DisconnectReportsError`, `Disconnects.MetatopicsLinger`). Names
  that arrive in messages are not cleaned, so another client can publish the four missing names, and then it succeeds
  (`Departures.LeavingCanSucceed`); `Disconnects.DisconnectSucceedsIff` says exactly when. The comment on `disconnect_client`
  promises a clean-up; the model follows the code.
- A leaving client gives up its pubuids one by one and can meet a zero count, which panics or wraps around depending on the build
  (parameter `overflowChecks`), and so stop half way. One client that publishes a name under two pubuids is enough
  (`Departures.LeavingCanOverflow`). The loop comes to its end exactly if no topic is held by more pubuids than it can be released
  (`Leaving.LoopFinishesIff`); with overflow checks a live topic can be released as often as its count says.
- A disconnect leaves the client's subscriptions in place, and the zeroed count of a topic it removed.
- A topic's publisher count does not count publishers: publishing a name already in use leaves it alone.
  A topic dies with its first unpublish, or its second if it was created retained or persistent, however
  many clients published it (`TopicLives.Lifetime`).
- A new topic starts without subscribers even if older subscriptions match its name; the exact statement is
  `Registry.ExactIndex`.
- The exit of `subscribe` for a missing subscriber list, logged as an error in the source, is unreachable between whole
  handler calls (`Registry.NoLookupFails`), and reachable when handlers overlap: exactly while another task is between the two inserts
  of `add_topic` for a matching name (`Locks.SubscribeFailsIff`). The subscribe has by then entered its id into other lists without a
  store, and the next `set_value` on such a topic fails its `unwrap` (`Locks.SetValueFindsIff`, `Exposure.FailureSpreads`).
- Two overlapping `add_topic` calls for one name can both find it free and leave two live topics of that name, of which the name
  table knows one (`NameRaces.TwinsHappen`); it takes two workers that are about to add it at the same time (`NameRaces.OneTopicPerName`).

## Model

| member | source | states |
|---|---|---|
| Handlers.RunInv | src/server/inner.rs:168-1029 | The invariant over all tables, channels and logs holds in every state of every run, after early error exits too |
| Handlers.StepInv | src/server/runner.rs:79-137 | Every handler call and every sending pass keeps the invariant |
| FreeRuns.RunFree | src/server/inner.rs:720-815 | In runs that publish `$`-free names, names, live topics, counts and metatopics stay in lockstep |
| Growth.RunLater | src/server/util.rs:115-133 | Over any stretch of a run ids are not reused, names of ids do not change, logs and channels only grow |
| Registry.RunAgreement | src/server/inner.rs:720-815 | The name table is injective and agrees with the topics; live and named ids have subscriber lists, which are ascending and hold present subscriptions only; the three subscription tables have the same keys; ids lie below their counters |
| Registry.NoLookupFails | src/server/inner.rs:564-575 | Between whole handler calls, in every reachable state: `subscribe` fails for unknown clients only, `set_value` succeeds exactly on live ordinary topics, and both of its unwraps find what they look for; for overlapping handlers see `Locks.SubscribeFailsIff` and `Locks.SetValueFindsIff` |
| Registry.ExactIndex | src/server/inner.rs:545-575 | A subscription is in the list of a name in use iff it is present, matches the name, and was made after the id was allocated |
| Registry.Origin | src/server/inner.rs:557-636 | Every subscription in the tables was made by an earlier subscribe of the run, under the id that was next then |
| Registry.ListsArePresent | src/server/inner.rs:676-683 | Every subscriber list is strictly ascending and drawn from the present subscriptions |
| Registry.RunOwnership | src/server/inner.rs:634-636 | A client's subuid map is injective, inverted by its reverse map, leads to the client's own subscriptions under their subuids, and shares no target with another client |
| Registry.UnsubscribedForGood | src/server/inner.rs:646-686 | After an unsubscribe the subscription id is in no table, no list and no subuid map, at any later point of the run |
| Registry.SubscribeLeavesNoTrace | src/server/inner.rs:525-686 | Subscribing under an unused subuid and unsubscribing restores all topic tables with every list, all subscription tables and the client's subuids |
| Delivery.Conservation | src/server/inner.rs:1011-1018 | Sent plus waiting values of an `All` subscription are, in order, exactly the values accepted since it was made by the topics that list it; of a `One` subscription the last is; other topics reach it with nothing |
| Delivery.NewestWins | src/server/inner.rs:1019-1026 | The newest of the cached value sent at first and everything that reached an `All` subscription since equals the server's cached value |
| Delivery.LatestWins | src/server/util.rs:182-199 | For any subscription the last value that reached it equals the cached value, if the topic's timestamps strictly increase |
| Delivery.CacheIsNewest | src/server/inner.rs:1019-1026 | The cached value is the newest of all values accepted for the topic since it was created |
| Delivery.NewestIsFirst | src/server/inner.rs:1020-1026 | The newest value is the first to arrive among those of the greatest timestamp |
| OrdinaryTopics.CachedTopics | src/server/inner.rs:807-810 | In `$`-free runs a topic has a cached value iff it is live, ordinary and accepted one |
| History.RunAcceptsAll | src/server/inner.rs:994-1029 | The log of accepted values is, per topic, the sequence of values that successful `set_value` calls of the run were given |
| History.RunDrains | src/server/runner.rs:242-259 | The log of values sent for a subscription is the sequence of its pending values at the passes that visited it |
| Mailing.SubscribeSends | src/server/inner.rs:564-641 | A subscribe appends one text and one binary message; the binary one holds exactly the cached value of each listed topic, once |
| Mailing.PassDelivers | src/server/runner.rs:242-259 | A pass appends to each client's channel exactly the values waiting for the visited subscriptions of the client, in order |
| Effects.PassTimes | src/server/runner.rs:221-240 | A pass sets the send times of the subscriptions it visits and of no others |
| Effects.SubscribeTimes | src/server/inner.rs:620-620 | A new subscription counts as sent to when it is made |
| Mailing.BatchesSend | src/server/runner.rs:246-259 | The messages made from one drained store hold, for each topic, its values in order, once |
| Greeting.SubscribeTells | src/server/inner.rs:564-641 | The text message of a subscribe holds, for each name in use that the subscription asks for, exactly one announcement with the source's type and properties and no pubuid, none for an ordinary name neither cached nor live, and nothing else |
| Greeting.RunTells | src/server/inner.rs:564-641 | So it is for every subscribe of every run |
| Channels.ChannelHistory | src/server/inner.rs:564-641 | The values in a channel are, per topic and in order, the cached values of its client's subscribes and what waited for the client's subscriptions at the passes that visited them; no other operation sends any |
| Channels.ChannelCarries | src/server/runner.rs:242-259 | With one subscription ever listed for a topic, channel and pending values hold the cached value it found and then just what reached it |
| Channels.AcceptedIsSent | src/server/inner.rs:1011-1026 | If that is an `All` subscription: the cached value it found and then, once and in order, every value the topic accepted since |
| EndToEnd.InboxHistory | src/client/inner.rs:331-416 | What a user finds under a name: the values of all ids ever allocated for it, for each id just the cached values that the client's subscribes found and what passes took for its subscriptions, in order |
| EndToEnd.AcceptedReachesUser | src/client/inner.rs:331-416 | The user who holds that one subscription and does not let its channel run over: what it was handed under the topic's name, then what waits in its channel, then what waits on the server, is that cached value and then every accepted value, once and in order |
| Announcements.AnnounceBeforeValue | src/server/inner.rs:564-641 | In every channel at every point of every run, a value comes after an announcement of its topic id |
| Announcements.OneNamePerId | src/server/inner.rs:820-896 | All announcements of an id, in all channels and at all times, carry one name, which is the topic's own whenever the id is live |
| Announcements.Bookkeeping | src/server/inner.rs:841-893 | Each id a client's record calls announced was announced to it, and at most one announcement with a pubuid is sent per client and id |
| Announcements.AnnounceAnswers | src/server/inner.rs:841-893 | Announcing with a response appends the answer, if the topic was not announced to that client before, then the plain announcement, if the client is interested, and nothing else; who is interested is stated by `Announcing.AnnounceExact` |
| Announcing.AnnounceExact | src/server/inner.rs:820-896 | Announcing a live topic appends to each channel exactly the answer, if its client publishes and was not told before, and one plain announcement, if its client is connected and owns a subscription that lists the name, or a prefix of it where the prefix option is set; just those clients are recorded as told, and nothing else changes |
| Announcing.PublishTells | src/server/inner.rs:386-437 | At any point of any run, publishing a new name appends to every channel exactly the announcements of the two metatopics and of the topic, each as far as its client asked for the name, and the answer |
| Announcements.PublishAnswered | src/server/inner.rs:386-437 | At any point of any run, a successful publish puts exactly one answer, with the topic's id and name and the pubuid, into the channel of a client that was not told about the topic before, and none into that of another |
| ClientFold.NeverUnannouncedYet | src/client/inner.rs:348-363 | However far a client came with its channel, piece by piece, and whatever its users received in between: it logged no error, knows exactly the ids it heard of, and each by the name it has on the server |
| ClientFold.NeverUnannounced | src/client/inner.rs:348-363 | Folding any prefix of a channel of any run, the client logs no error, knows exactly the announced ids, and each by the name it has on the server |
| ClientFold.UserGets | src/client/inner.rs:387-416 | Whenever its user asks for values in between, a subscription is given exactly the values of topics whose server names it matches, in order, and is lost exactly if at some point more of them wait to be received than its channel takes; the user is handed the oldest, in order |
| ClientFold.HandsInOrder | src/spec/subscription.rs:105-111 | Over any schedule of arrivals and requests a user is handed, in order and once, the values that went into its channel first |
| ClientEffects.ValueExact | src/client/inner.rs:331-416 | Each malformed array, a bad id and an id not announced log their own error and change nothing else; any other value is given to the subscriptions that ask for its topic's name, field by field |
| ClientEffects.TextExact | src/client/inner.rs:250-310 | What each kind of message from the server does to announced topics and errors |
| ClientEffects.OpenedMeans | src/client/inner.rs:191-203 | A new connection knows the time only |
| ClientEffects.FirstAnnouncementCounts | src/client/inner.rs:265-285 | However far a client came with its channel, it knows each topic by name, type and properties of the first announcement of its id |
| Meanings.MatchingMeans | src/spec/subscription.rs:33-41 | A subscription asks for a name iff it lists it or, where the prefix option is set, a prefix of it |
| Meanings.OptionsMean | src/server/inner.rs:622-632 | Absent options are unset: a store keeps all values iff the options are present with `all` set |
| Meanings.Casts | src/server/inner.rs:844-844 | Casting between signed and unsigned keeps the number modulo 2^32, both ways |
| ClientFold.SidesMatch | src/spec/subscription.rs:33-41 | Client and server decide alike whether a subscription matches a name |
| Routing.RoutingSafety | src/server/runner.rs:165-178 | A value sent under a pubuid changes nothing, or only the cache and the listed stores of the live ordinary topic with the name the client last published under that pubuid |
| Routing.RunNotes | src/server/inner.rs:399-412 | The name noted for a client's pubuid is the one of its last successful publish under it |
| Routing.RunEquipped | src/server/inner.rs:373-373 | Every connected client but the server's own has a pair of metatopics, in every reachable state |
| Effects.ConnectExact | src/server/inner.rs:307-376 | A new client's record, channel, index and metatopic names; nobody else's change |
| Meanings.RenamedMeans | src/server/inner.rs:322-334 | A newcomer keeps its name iff it occurs in no connected client's name; else the number of those is added |
| Meanings.DecimalMeans | src/server/inner.rs:333-333 | Numbers are written in decimal without leading zeros |
| Effects.DisconnectExact | src/server/inner.rs:256-264 | However it ends, a disconnect takes the client out of both client tables and leaves channels, subscriptions and other clients as they are |
| Effects.ErrorsExact | src/server/inner.rs:446-470 | Which error unknown clients, unknown uids and dead or reserved topics meet, and that nothing changes then |
| Effects.HalfWay | src/server/inner.rs:386-400 | What an unpublish of a topic that is not counted, and a publish of an unknown client, leave behind |
| Routing.IdsNeverReturn | src/server/util.rs:116-120 | A topic id that left the live topics never returns, and the name table never gives an id another name |
| OrdinaryTopics.TogetherAlways | src/server/inner.rs:720-759 | In `$`-free runs a name and its `$pub$` and `$sub$` names are in use together, and then stand for live topics |
| OrdinaryTopics.PublishSucceeds | src/server/inner.rs:386-437 | In `$`-free runs publishing succeeds iff the client is connected; a name in use keeps its tables and count, a new one gets exactly three ids; the pubuid then leads to the topic of that name |
| Effects.PublishNewExact | src/server/inner.rs:720-759 | In `$`-free runs a new name's topic is as published, its metatopics are raw and without properties, and names, lists, counts and the pubuid are exactly these |
| Effects.AddReservedExact | src/server/inner.rs:720-749 | Adding a topic under a reserved name, in any state |
| Effects.RemoveExact | src/server/inner.rs:762-815 | What a removal leaves, in each of its four exits |
| Effects.SetPropertiesExact | src/server/inner.rs:689-716 | Field by field: the update's value if it has one, else what it was; nothing else changes, and nothing at all if it fails |
| Effects.PropertiesHistory | src/server/inner.rs:689-716 | As long as a topic is live its name and type are as published and each property is the last one set |
| OrdinaryTopics.RemoveSucceeds | src/server/inner.rs:762-815 | In `$`-free runs removing a live ordinary topic succeeds and removes exactly three live topics, their names, lists and value |
| Leaving.LoopFinishesIff | src/server/inner.rs:270-277 | For a client with ordinary topics, in any state the invariant allows: the release loop comes to its end iff no topic is given up more often than its limit, which is read off its count, the build and whether it can be removed; each limit then is smaller by the pubuids given up |
| Leaving.LoopReaches | src/server/inner.rs:270-277 | Otherwise it stops at the first pubuid that its topic's limit does not cover, and what it did before stays |
| Disconnects.DisconnectSucceedsIff | src/server/inner.rs:256-293 | In every reachable state, for every known client: success iff the loop finds a releasable topic at each pubuid and then both metatopics are live with the names of their own metatopics in use when they are removed |
| Disconnects.PlainDisconnectSucceedsIff | src/server/inner.rs:256-293 | For a client that publishes ordinary names the same is told by the tables before the call |
| Spoiling.LoopPassesIff | src/server/inner.rs:270-277 | For any client in any state, told by the tables before the loop and the order: it comes to its end iff no count it meets is a zero that panics, and the topics whose counts come to zero are removable and not spoiled by those removed before; counts and removable topics after it are those this predicts |
| Spoiling.DisconnectByTables | src/server/inner.rs:256-293 | In every reachable state, for every known client, whatever names it publishes, success told by the tables before the call and the order of its pubuids |
| Disconnects.DisconnectReportsError | src/server/inner.rs:279-284 | In `$`-free runs every disconnect of a known client returns an error: if it holds no topic too often, that of its first metatopic, which is dead then; else, with overflow checks, the zero count. Both metatopic names stay in use and the second metatopic stays live |
| Disconnects.MetatopicsLinger | src/server/inner.rs:768-788 | And so they stay at every later point of the run |
| Departures.LeavingCanSucceed | src/server/runner.rs:91-97 | There is a run whose last disconnect succeeds, after another client published the four names |
| Departures.ProppedLeaves | src/server/runner.rs:91-97 | From any point of any run another client can bring that about for a client that published nothing and has live metatopics |
| Departures.LeavingCanOverflow | src/server/inner.rs:270-277 | There is a `$`-free run whose last disconnect meets a zero count: one name, two pubuids, one client |
| TopicLives.Lifetime | src/server/inner.rs:730-736 | A topic is live exactly until its k-th release, and its count is k minus the releases so far, k being 2 if it was created retained or persistent and 1 otherwise |
| TopicLives.LifeByClaims | src/server/inner.rs:476-487 | The same counted by operations alone, in every such run: the pubuids of the topic given up by unpublish, and by disconnects as far as their loops come |
| TopicLives.LifeByPubuids | src/server/inner.rs:270-277 | Where no leaving client holds a topic more often than it can be released, these are all pubuids that unpublishing and leaving clients hold of it |
| TopicLives.StepReleases | src/server/inner.rs:270-277 | Any operation lowers the count of a live topic by the pubuids of it that it gives up, and the topic lives on iff that leaves something; no release has another cause, and none is missing where the leaving client holds no topic too often |
| TopicLives.PublishNew | src/spec/topic.rs:42-49 | The initial publisher count of a new topic is 2 iff it has an implicit publisher |
| Meanings.InitialCount | src/spec/topic.rs:42-49 | The initial count is 2 iff retained or persistent is set, else 1 |
| RoundTrips.NoTrace | src/server/inner.rs:386-512 | Publishing a new, neither retained nor persistent name under an unused pubuid, setting any values and unpublishing restores all topic tables, the client's pubuids and, unless it had the pair before, its publisher list; the publisher counts keep one new entry for each of the two metatopics |
| MetaTopic.WithoutContents | src/spec/metatopic.rs:127-165 | Reducing a list keeps exactly the entries that are not in the other list |
| MetaTopic.MergeReduce | src/spec/metatopic.rs:87-165 | Merging a new entry and reducing with it gives the list back, in order |
| MetaTopic.WithoutKeeps | src/spec/metatopic.rs:127-165 | Reducing keeps the elements at just the positions that hold none of the other list, in order |
| MetaLists.PublishLists | src/server/inner.rs:414-434 | A successful publish appends the name and pubuid to the list of the client, the server's own included, and changes no other list; a failed one changes none |
| MetaLists.UnpublishLists | src/server/inner.rs:491-509 | A successful unpublish leaves of it the entries other than that name and pubuid |
| MetaLists.ListHistory | src/server/inner.rs:414-509 | In every run a list of publishers is what the publishes and unpublishes of the clients it belongs to made of it; no other operation changes it |
| MetaLists.ConnectLists | src/server/inner.rs:350-354 | A successful connect appends the new client's name and address to the list of clients |
| MetaLists.ClientHistory | src/server/inner.rs:350-354 | In every run the list of clients names everyone who connected, in order; nothing else changes it |
| Refinement.OneRefinesAll | src/server/util.rs:158-199 | Over any sequence of calls the `One` form has the topics of the `All` form and the last element of each queue, and its drains are the `All` drains cut to the last elements |
| Refinement.AllKeepsEverything | src/server/util.rs:173-191 | Drains and pending values of the `All` form together are the values added, in order |
| Locks.ExpectsNeverFail | src/server/runner.rs:206-265 | However workers interleave, while a pass holds its locks every subscription has its send time and its pending values, and nobody else holds any of these locks |
| Locks.TablesStandStill | src/server/runner.rs:206-265 | Under a pass no other worker changes the keys of the subscription tables or the clients |
| Locks.RunLocks | src/server/inner.rs:525-815 | Mutual exclusion, fresh and exclusively owned subscription and topic ids, subscriptions contained in both other tables, and each topic id listed, delisted or being added, in every state of every interleaving |
| Locks.SubscribeFailsIff | src/server/inner.rs:564-575 | However workers interleave, the loop of `subscribe` takes its failing exit iff a worker is between inserting a matching name and inserting that name's list |
| Locks.SetValueFindsIff | src/server/inner.rs:1011-1018 | However workers interleave, `set_value` finds all it looks up iff the topic has a list and no subscription on it comes from a subscribe that took that exit; a topic without list was removed or is being added |
| Locks.FailedBefore | src/server/inner.rs:564-575 | The failures recorded in the state are those that happened in the interleaving |
| LockEffects.SubscribeDone | src/server/inner.rs:564-636 | However workers interleave, a subscribe that comes to its end leaves the subscription in all three tables, bound to the client's subuid |
| LockEffects.UnsubscribeDone | src/server/inner.rs:676-684 | And an unsubscribe leaves it in no table and no list |
| LockEffects.LoopExact | src/server/inner.rs:564-575 | The loop enters the subscription into the lists of just the ids it calls for |
| LockEffects.InsertsExact | src/server/inner.rs:620-636 | The three inserts and the binding of a subscribe |
| LockEffects.RemovesExact | src/server/inner.rs:676-684 | What each action of an unsubscribe takes away |
| LockEffects.TakesExact | src/server/inner.rs:762-803 | What each action of a removal takes |
| LockEffects.AddsExact | src/server/inner.rs:720-740 | What each action of an addition inserts |
| Exposure.FailureSpreads | src/server/inner.rs:738-740 | An interleaving in which a subscribe takes that exit and a later `set_value` misses a store |
| NameRaces.OneTopicPerName | src/server/inner.rs:720-740 | However workers interleave: as long as no two of them are about to add an ordinary name at the same time, it has one live topic at most, and the name stands for it or it is being added |
| NameRaces.PlacedTwins | src/server/inner.rs:720-740 | While two workers are between inserting a topic and entering its name, there are two live topics of that name |
| NameRaces.TwinsHappen | src/server/inner.rs:720-740 | An interleaving after which two live topics share a name, which stands for the second |
| CleanNames.CleanNameOrdinary | src/client/async_handle.rs:106-112 | Cleaning any name leaves neither `$` nor a colon |
| CleanNames.CleanNameFixes | src/client/async_handle.rs:106-112 | A name is published unchanged iff it has no `$`, no colon and no double slash |
| CleanNames.DollarsExact | src/client/async_handle.rs:108-108 | `$` is dropped and nothing else |
| CleanNames.PairsExact | src/client/async_handle.rs:109-109 | Characters other than slashes stay and separate the runs of slashes |
| CleanNames.SlashRun | src/client/async_handle.rs:109-109 | Of a run of slashes all pairs are dropped |
| CleanNames.CleanNameSteps | src/client/async_handle.rs:106-112 | The three steps in order, the last one turning colons into slashes at their places |
| Meanings.NewServer | src/server/inner.rs:170-235 | All tables of a new server |
| Server.InnerServer.TryNew | src/server/inner.rs:170-235 | A new server has its pseudo-client and three metatopics, and satisfies the invariant |
| Server.InnerServer.AddTopic | src/server/inner.rs:720-759 | Hands back the id in use for the name, or allocates the next one and, for an ordinary name, adds and announces its two metatopics; an error on the way leaves what was done so far; the invariant is kept |
| Server.InnerServer.RemoveTopic | src/server/inner.rs:762-815 | Takes the topic, its metatopics, their names, lists and values out, or stops half way with an error when a metatopic name is not in use; the invariant is kept at each of the four exits |
| Server.InnerServer.AnnounceTopic | src/server/inner.rs:820-896 | Answers the responding client if it was not told before, then marks and tells every connected client with a matching subscription, each once, whatever the iteration order |
| Server.InnerServer.PublishTopic | src/server/inner.rs:386-437 | Adds, announces, binds the pubuid and extends the publisher list, in this order, stopping at the first error |
| Server.InnerServer.UnpublishTopic | src/server/inner.rs:440-512 | Unbinds the pubuid, releases the topic, drops a count that reached zero and shortens the publisher list, stopping at the first error |
| Server.InnerServer.Subscribe | src/server/inner.rs:525-643 | Lists the next subscription id for every matching name, enters it into the three tables and the client's subuids and sends announcements and cached values, for the iteration order it meets; or fails for an unknown client |
| Server.InnerServer.Unsubscribe | src/server/inner.rs:646-686 | Takes the client's subscription out of its subuids, of every list and of the three tables, or fails for an unknown client or subuid |
| Server.InnerServer.SetProperties | src/server/inner.rs:689-716 | Overwrites the properties that the update has and keeps the others, or fails for an unknown name or dead topic |
| Server.InnerServer.SetValue | src/server/inner.rs:994-1029 | Queues the value once for every listed subscription and replaces the cached value if it is strictly older; fails for dead topics and metatopics |
| Server.InnerServer.ConnectClient | src/server/inner.rs:307-376 | Renames and admits the client, notes it in the client list and adds its two metatopics, or fails for a known identity |
| Server.InnerServer.DisconnectClient | src/server/inner.rs:256-293 | Removes the client, releases the topic of each of its pubuids in the iteration order until a release fails, then removes its metatopics until one removal fails |
| Runner.ParseText | src/server/runner.rs:79-136 | A text message runs one operation per request in it, in order, each for the sending client |
| Runner.RequestsMean | src/server/runner.rs:92-134 | The messages acted on are all that a client can send |
| Runner.ParseBinary | src/server/runner.rs:137-187 | A binary message runs one routed value operation per value in it, in order |
| Runner.SendOut | src/server/runner.rs:201-273 | A pass is the model's operation, and visits exactly the due subscriptions that want values; its lookups succeed |
| Runner.ContinuesRun | src/server/runner.rs:65-137 | What the server object does extends the run that led to its state |
| Client.InnerClient.Handle | src/client/inner.rs:250-329 | Handling a message changes announced topics, subscriptions and logged errors as the fold says |
| Client.InnerClient.HandleAll | src/client/inner.rs:250-329 | A connection that delivers the server's messages in order leaves the client in the state the fold gives |
| Client.InnerClient.HandleItems | src/client/inner.rs:250-385 | The same piece by piece, with users receiving in between |
| Client.InnerClient.TryNext | src/spec/subscription.rs:109-111 | Hands the user the oldest value of its channel that it was not handed yet, if there is one, and makes room for one |
| Client.InnerClient.HandleWireValue | src/client/inner.rs:331-385 | A well-formed value of an announced topic goes to the subscriptions under that topic's name; each malformed form, and an id not announced, logs its own error and changes nothing else |
| Client.InnerClient.SendValueToSubscriber | src/client/inner.rs:387-416 | Each matching subscription gets the value or, if its channel is full or it was dropped, is not retained |
| Stores.AddValue | src/server/util.rs:173-187 | Appends to the topic's queue, or replaces the topic's latest value |
| Stores.TakeValues | src/server/util.rs:188-199 | Returns everything waiting, one sequence per topic, and leaves the store empty |
| BiMap.InsertInverts | src/bimap.rs:33-37 | An insertion keeps the forward map inverted by the reverse map iff no other left has the same right |
| BiMap.StaleReverse | src/bimap.rs:47-53 | After any removal the reverse map still holds the pair, so the two maps are no bijection, though the forward map stays inverted |
| Stores.Reduce | src/spec/metatopic.rs:127-165 | Retains the entries that are not in the other list, in order |

## Left out

- WebSocket, HTTP upgrade, kill switches and the outgoing socket loop: delivery is stated at the client's output channel.
- Send periods and clocks: a pass may visit any set of subscriptions that do not want topics only.
- JSON and MessagePack encoding: messages are datatypes; sends and encodings do not fail.
- Deadlock and liveness: lock orders differ between the handlers and the sending loop; only safety is stated.
- Locks: the interleaving model keeps the keys of the subscription tables, the subuid maps, names, live topics and subscriber lists, not values, counts or messages; announcing and the rest of publishing, connecting and disconnecting are workers that hold any locks, add and remove topics under them, and connect or disconnect clients. `remove_topic` is called for ids that were in the name table.
- Registry.NoLookupFails: speaks of states between whole handler calls; what overlapping handlers can do to the same lookups is stated by `Locks`.
- EndToEnd.AcceptedReachesUser: asks that the topic's name was allocated one id, because the user is told names only (`EndToEnd.InboxHistory` does not), and that topic ids stay below 2^31.
- ClientFold.UserGets: is about subscriptions whose user keeps them; one that was dropped is taken out when the next value arrives (`Client.InnerClient.SendValueToSubscriber`).
- Panics: a decrement of a zero count is an exit with the outcome `Overflow` where overflow checks are on; what a panicking worker leaves behind beyond the tables is not modelled.
- ClientFold.NeverUnannounced: asks that topic ids stay below 2^31, where the source casts them to `i32`.
- The maps of `InnerServer` are grouped in four records and owned nested values (client records, pending stores, two-way maps, counters) are replaced in their map; Rust ownership rules out aliases, so nothing is lost. `Stores` returns the new value where the source changes it in place.
- Uniqueness of client names after renaming, and agreement of metatopic lists with publishers across clients: the code does not ensure them.
- `get_topic_idx` and the server-handle calls through it, `un_announce_topics` and `announce_all_topics_for`, metatopic variants the server never builds, flushing, callbacks, configuration, logging, persistence.
- On the client: time offset, reconnection, type-code tables and id counters; a type code is known, unknown or missing.
