/** Subscribing, unsubscribing, sending out, adding and removing topics and setting values, interleaved at every mutex acquire
    and release. Here only the keys of tables, the name table and the subscriber lists matter, not values and messages. */
module Locks {
  import opened Basics
  import opened Protocol

  type TaskId = nat

  datatype Lock =
    | Clients | TopicMap | TopicSubMap | TopicValues | Topics | Counters | SendTimes | SubValues | Subscriptions | PubCount | MetaValues

  /** Where a call of `subscribe` is: waiting for a lock, or about to act under the ones it has. */
  datatype SubStage =
    | SWantClients | SCheck | SWantTopicMap | SWantTopicSubMap | SWantTopicValues | SWantCounters | STakeId
    | SWantTopics | SLoop | SWantTimes | SInsertTime | SWantValues | SInsertValue | SWantSubs | SInsertSub | SBind

  datatype UnsubStage =
    | UWantClients | UFind | UWantTopicSubMap | UForget | UWantSubs | URemoveSub | UWantValues | URemoveValue | UWantTimes | URemoveTime

  datatype SendStage = NWantSubs | NCheck | NWantValues | NWantTimes | NWantClients | NLoop

  datatype AddStage =
    | AWantTopicMap | ACheck | AWantTopics | AWantCounters | ATakeId | AInsertTopic | AWantCount | AInsertCount
    | AWantName | AInsertName | AWantList | AInsertList

  datatype RemoveStage =
    | RWantTopics | RTakeTopic | RWantTopicMap | RTakeNames | RWantLists | RDropLists | RWantTopicValues | RWantMetaValues | RDropValues

  datatype SetStage = VWantTopics | VCheck | VWantValues | VWantLists | VQueue | VWantTopicValues | VStore

  /** `Other` is any worker outside the calls: it may hold locks, and connect or disconnect clients under theirs. It can keep
      the locks it has over a call of the last three kinds: these are `outer`. */
  datatype Pc =
    | Other(held: set<Lock>)
    | Sub(c: ClientIdx, q: Subscription, s: SubIdx, sub: SubStage)
    | Unsub(c: ClientIdx, u: SubUID, s: SubIdx, unsub: UnsubStage)
    | Send(send: SendStage)
    | Add(outer: set<Lock>, n: string, id: TopicIdx, add: AddStage)
    | Remove(outer: set<Lock>, id: TopicIdx, gone: set<TopicIdx>, remove: RemoveStage)
    | SetValue(outer: set<Lock>, id: TopicIdx, setting: SetStage)

  /** `live` topics, the `title` each id was allocated for, the name table and the subscriber lists. Two sets record the past:
      ids that ever were in the name table, and ids whose list was ever taken away. */
  datatype TopicShare = TopicShare(
    live: set<TopicIdx>,
    title: map<TopicIdx, string>,
    names: map<string, TopicIdx>,
    lists: map<TopicIdx, set<SubIdx>>,
    nextTopic: TopicIdx,
    known: set<TopicIdx>,
    cleansed: set<TopicIdx>)

  /** `clients` holds the forward uid maps; three sets are the keys of the subscription tables. `failed` records the ids of
      the subscribes that met a name without a list. */
  datatype Shared = Shared(
    clients: map<ClientIdx, map<SubUID, SubIdx>>,
    nextClient: ClientIdx,
    nextSub: SubIdx,
    subs: set<SubIdx>,
    values: set<SubIdx>,
    times: set<SubIdx>,
    failed: set<SubIdx>,
    t: TopicShare)

  datatype Global = Global(owner: map<Lock, TaskId>, tasks: map<TaskId, Pc>, m: Shared)

  const MAPS := {Clients, TopicMap, TopicSubMap, TopicValues}

  /** The locks a worker has at a stage. */
  function Held(pc: Pc): set<Lock> {
    match pc
    case Other(held) => held
    case Sub(_, _, _, stage) => SubHeld(stage)
    case Unsub(_, _, _, stage) => UnsubHeld(stage)
    case Send(stage) => SendHeld(stage)
    case Add(outer, _, _, stage) => outer + AddHeld(stage)
    case Remove(outer, _, _, stage) => outer + RemoveHeld(stage)
    case SetValue(outer, _, stage) => outer + SetHeld(stage)
  }

  function SubHeld(stage: SubStage): set<Lock> {
    match stage
    case SWantClients => {}
    case SCheck => {Clients}
    case SWantTopicMap => {Clients}
    case SWantTopicSubMap => {Clients, TopicMap}
    case SWantTopicValues => {Clients, TopicMap, TopicSubMap}
    case SWantCounters => MAPS
    case STakeId => MAPS + {Counters}
    case SWantTopics => MAPS
    case SInsertTime => MAPS + {Topics, SendTimes}
    case SInsertValue => MAPS + {Topics, SubValues}
    case SInsertSub => MAPS + {Topics, Subscriptions}
    case _ => MAPS + {Topics}
  }

  function UnsubHeld(stage: UnsubStage): set<Lock> {
    match stage
    case UWantClients => {}
    case UFind => {Clients}
    case UWantTopicSubMap => {Clients}
    case URemoveSub => {Clients, TopicSubMap, Subscriptions}
    case URemoveValue => {Clients, TopicSubMap, SubValues}
    case URemoveTime => {Clients, TopicSubMap, SendTimes}
    case _ => {Clients, TopicSubMap}
  }

  function SendHeld(stage: SendStage): set<Lock> {
    match stage
    case NWantSubs => {}
    case NCheck => {Subscriptions}
    case NWantValues => {Subscriptions}
    case NWantTimes => {Subscriptions, SubValues}
    case NWantClients => {Subscriptions, SubValues, SendTimes}
    case NLoop => {Subscriptions, SubValues, SendTimes, Clients}
  }

  function AddHeld(stage: AddStage): set<Lock> {
    match stage
    case ACheck => {TopicMap}
    case AWantCounters => {Topics}
    case ATakeId => {Topics, Counters}
    case AInsertTopic => {Topics}
    case AInsertCount => {PubCount}
    case AInsertName => {TopicMap}
    case AInsertList => {TopicSubMap}
    case _ => {}
  }

  function RemoveHeld(stage: RemoveStage): set<Lock> {
    match stage
    case RWantTopics => {}
    case RTakeTopic => {Topics}
    case RWantTopicMap => {Topics}
    case RTakeNames => {Topics, TopicMap}
    case RWantLists => {}
    case RDropLists => {TopicSubMap}
    case RWantTopicValues => {TopicSubMap}
    case RWantMetaValues => {TopicSubMap, TopicValues}
    case RDropValues => {TopicSubMap, TopicValues, MetaValues}
  }

  function SetHeld(stage: SetStage): set<Lock> {
    match stage
    case VCheck => {Topics}
    case VWantLists => {SubValues}
    case VQueue => {SubValues, TopicSubMap}
    case VStore => {TopicValues}
    case _ => {}
  }

  /** The lock a worker waits for, and the stage it reaches with it. */
  function Awaited(pc: Pc): Option<(Lock, Pc)> {
    match pc
    case Other(_) => None
    case Sub(_, _, _, stage) =>
      (match stage
       case SWantClients => Some((Clients, pc.(sub := SCheck)))
       case SWantTopicMap => Some((TopicMap, pc.(sub := SWantTopicSubMap)))
       case SWantTopicSubMap => Some((TopicSubMap, pc.(sub := SWantTopicValues)))
       case SWantTopicValues => Some((TopicValues, pc.(sub := SWantCounters)))
       case SWantCounters => Some((Counters, pc.(sub := STakeId)))
       case SWantTopics => Some((Topics, pc.(sub := SLoop)))
       case SWantTimes => Some((SendTimes, pc.(sub := SInsertTime)))
       case SWantValues => Some((SubValues, pc.(sub := SInsertValue)))
       case SWantSubs => Some((Subscriptions, pc.(sub := SInsertSub)))
       case _ => None)
    case Unsub(_, _, _, stage) =>
      (match stage
       case UWantClients => Some((Clients, pc.(unsub := UFind)))
       case UWantTopicSubMap => Some((TopicSubMap, pc.(unsub := UForget)))
       case UWantSubs => Some((Subscriptions, pc.(unsub := URemoveSub)))
       case UWantValues => Some((SubValues, pc.(unsub := URemoveValue)))
       case UWantTimes => Some((SendTimes, pc.(unsub := URemoveTime)))
       case _ => None)
    case Send(stage) =>
      (match stage
       case NWantSubs => Some((Subscriptions, pc.(send := NCheck)))
       case NWantValues => Some((SubValues, pc.(send := NWantTimes)))
       case NWantTimes => Some((SendTimes, pc.(send := NWantClients)))
       case NWantClients => Some((Clients, pc.(send := NLoop)))
       case _ => None)
    case Add(_, _, _, stage) =>
      (match stage
       case AWantTopicMap => Some((TopicMap, pc.(add := ACheck)))
       case AWantTopics => Some((Topics, pc.(add := AWantCounters)))
       case AWantCounters => Some((Counters, pc.(add := ATakeId)))
       case AWantCount => Some((PubCount, pc.(add := AInsertCount)))
       case AWantName => Some((TopicMap, pc.(add := AInsertName)))
       case AWantList => Some((TopicSubMap, pc.(add := AInsertList)))
       case _ => None)
    case Remove(_, _, _, stage) =>
      (match stage
       case RWantTopics => Some((Topics, pc.(remove := RTakeTopic)))
       case RWantTopicMap => Some((TopicMap, pc.(remove := RTakeNames)))
       case RWantLists => Some((TopicSubMap, pc.(remove := RDropLists)))
       case RWantTopicValues => Some((TopicValues, pc.(remove := RWantMetaValues)))
       case RWantMetaValues => Some((MetaValues, pc.(remove := RDropValues)))
       case _ => None)
    case SetValue(_, _, stage) =>
      (match stage
       case VWantTopics => Some((Topics, pc.(setting := VCheck)))
       case VWantValues => Some((SubValues, pc.(setting := VWantLists)))
       case VWantLists => Some((TopicSubMap, pc.(setting := VQueue)))
       case VWantTopicValues => Some((TopicValues, pc.(setting := VStore)))
       case _ => None)
  }

  /** What a worker decides when it acts: which lists a failing subscribe got to before the missing one, which subscription a
      pass visits next. */
  datatype Choice = Go | Reach(done: set<TopicIdx>) | Visit(s: SubIdx) | Connect | Disconnect(c: ClientIdx) | Begin(call: Pc) | Grab(l: Lock) | Release(l: Lock)

  const DONE := Other({})

  // ---- what a call does under its locks ----

  /** The ids whose lists a new subscription is to be entered in. */
  function Wanted(t: TopicShare, q: Subscription): set<TopicIdx> {
    set n | n in t.names && q.CaresAbout(n) :: t.names[n]
  }

  /** The loop over them meets an id without a list. */
  predicate LoopFails(t: TopicShare, q: Subscription) {
    !(Wanted(t, q) <= t.lists.Keys)
  }

  function Pushed(lists: map<TopicIdx, set<SubIdx>>, ids: set<TopicIdx>, s: SubIdx): map<TopicIdx, set<SubIdx>> {
    map i | i in lists :: if i in ids then lists[i] + {s} else lists[i]
  }

  function Forgotten(lists: map<TopicIdx, set<SubIdx>>, s: SubIdx): map<TopicIdx, set<SubIdx>> {
    map i | i in lists :: lists[i] - {s}
  }

  function Bound(fwd: map<SubUID, SubIdx>, u: SubUID, s: SubIdx): map<SubUID, SubIdx> {
    fwd[u := s]
  }

  function SubAct(m: Shared, pc: Pc, choice: Choice): Option<(Shared, Pc)>
    requires pc.Sub?
  {
    match pc.sub
    case SCheck => Some((m, if pc.c in m.clients then pc.(sub := SWantTopicMap) else DONE))
    case STakeId => Some((m.(nextSub := m.nextSub + 1), pc.(s := m.nextSub, sub := SWantTopics)))
    case SLoop =>
      if !LoopFails(m.t, pc.q) then Some((m.(t := m.t.(lists := Pushed(m.t.lists, Wanted(m.t, pc.q), pc.s))), pc.(sub := SWantTimes)))
      else if choice.Reach? && choice.done <= Wanted(m.t, pc.q) then
        Some((m.(t := m.t.(lists := Pushed(m.t.lists, choice.done, pc.s)), failed := m.failed + {pc.s}), DONE))
      else None
    case SInsertTime => Some((m.(times := m.times + {pc.s}), pc.(sub := SWantValues)))
    case SInsertValue => Some((m.(values := m.values + {pc.s}), pc.(sub := SWantSubs)))
    case SInsertSub => Some((m.(subs := m.subs + {pc.s}), pc.(sub := SBind)))
    case SBind =>
      if pc.c in m.clients then Some((m.(clients := m.clients[pc.c := Bound(m.clients[pc.c], AsU32(pc.q.subuid), pc.s)]), DONE)) else None
    case _ => None
  }

  function UnsubAct(m: Shared, pc: Pc): Option<(Shared, Pc)>
    requires pc.Unsub?
  {
    match pc.unsub
    case UFind =>
      if pc.c in m.clients && pc.u in m.clients[pc.c]
      then Some((m.(clients := m.clients[pc.c := m.clients[pc.c] - {pc.u}]), pc.(s := m.clients[pc.c][pc.u], unsub := UWantTopicSubMap)))
      else Some((m, DONE))
    case UForget => Some((m.(t := m.t.(lists := Forgotten(m.t.lists, pc.s))), pc.(unsub := UWantSubs)))
    case URemoveSub => Some((m.(subs := m.subs - {pc.s}), pc.(unsub := UWantValues)))
    case URemoveValue => Some((m.(values := m.values - {pc.s}), pc.(unsub := UWantTimes)))
    case URemoveTime => Some((m.(times := m.times - {pc.s}), DONE))
    case _ => None
  }

  function SendAct(m: Shared, pc: Pc, choice: Choice): Option<(Shared, Pc)>
    requires pc.Send?
  {
    match pc.send
    case NCheck => Some((m, if m.subs == {} then Send(NWantSubs) else Send(NWantValues)))
    case NLoop =>
      (match choice
       case Visit(s) => if s in m.subs then Some((m.(times := m.times + {s}), pc)) else None
       case _ => Some((m, Send(NWantSubs))))
    case _ => None
  }

  function AddAct(t: TopicShare, pc: Pc): Option<(TopicShare, Pc)>
    requires pc.Add?
  {
    match pc.add
    case ACheck => Some((t, if pc.n in t.names then Other(pc.outer) else pc.(add := AWantTopics)))
    case ATakeId => Some((t.(nextTopic := t.nextTopic + 1), pc.(id := t.nextTopic, add := AInsertTopic)))
    case AInsertTopic => Some((t.(live := t.live + {pc.id}, title := t.title[pc.id := pc.n]), pc.(add := AWantCount)))
    case AInsertCount => Some((t, pc.(add := AWantName)))
    case AInsertName => Some((t.(names := t.names[pc.n := pc.id], known := t.known + {pc.id}), pc.(add := AWantList)))
    case AInsertList => Some((t.(lists := t.lists[pc.id := {}]), Other(pc.outer)))
    case _ => None
  }

  function RemoveAct(t: TopicShare, pc: Pc): Option<(TopicShare, Pc)>
    requires pc.Remove?
  {
    match pc.remove
    case RTakeTopic =>
      if pc.id in t.live then Some((t.(live := t.live - {pc.id}), pc.(remove := RWantTopicMap))) else Some((t, Other(pc.outer)))
    case RTakeNames =>
      if pc.id !in t.title then None
      else
        var name := t.title[pc.id];
        if PubMeta(name) !in t.names then Some((t, Other(pc.outer)))
        else if SubMeta(name) !in t.names - {PubMeta(name)} then Some((t.(names := t.names - {PubMeta(name)}), Other(pc.outer)))
        else
          var p, s := t.names[PubMeta(name)], t.names[SubMeta(name)];
          Some((t.(names := t.names - {PubMeta(name), SubMeta(name), name}, live := t.live - {p, s}), pc.(gone := {pc.id, p, s}, remove := RWantLists)))
    case RDropLists => Some((t.(lists := t.lists - pc.gone, cleansed := t.cleansed + pc.gone), pc.(remove := RWantTopicValues)))
    case RDropValues => Some((t, Other(pc.outer)))
    case _ => None
  }

  /** The two lookups of `set_value` under the locks of the stores and the lists. */
  predicate QueueFinds(m: Shared, i: TopicIdx) {
    i in m.t.lists && m.t.lists[i] <= m.values
  }

  function SetAct(m: Shared, pc: Pc): Option<Pc>
    requires pc.SetValue?
  {
    match pc.setting
    case VCheck => Some(if pc.id in m.t.live && pc.id in m.t.title && '$' !in m.t.title[pc.id] then pc.(setting := VWantValues) else Other(pc.outer))
    case VQueue => Some(if QueueFinds(m, pc.id) then pc.(setting := VWantTopicValues) else DONE)
    case VStore => Some(Other(pc.outer))
    case _ => None
  }

  /** A call starts at its first stage, with an id that was in the name table if it removes a topic. */
  predicate Starting(m: Shared, held: set<Lock>, call: Pc) {
    match call
    case Other(_) => false
    case Sub(_, _, _, stage) => stage.SWantClients? && held == {}
    case Unsub(_, _, _, stage) => stage.UWantClients? && held == {}
    case Send(stage) => stage.NWantSubs? && held == {}
    case Add(outer, _, _, stage) => stage.AWantTopicMap? && held == outer
    case Remove(outer, i, gone, stage) => stage.RWantTopics? && held == outer && i in m.t.known && gone == {}
    case SetValue(outer, _, stage) => stage.VWantTopics? && held == outer
  }

  function OtherAct(m: Shared, pc: Pc, choice: Choice): Option<(Shared, Pc)>
    requires pc.Other?
  {
    match choice
    case Connect => if Clients in pc.held then Some((m.(clients := m.clients[m.nextClient := map[]], nextClient := m.nextClient + 1), pc)) else None
    case Disconnect(c) => if Clients in pc.held then Some((m.(clients := m.clients - {c}), pc)) else None
    case Release(l) => Some((m, Other(pc.held - {l})))
    case Begin(call) => if Starting(m, pc.held, call) then Some((m, call)) else None
    case _ => None
  }

  /** One action under the locks held: the new shared tables and the worker's next stage. */
  function Act(m: Shared, pc: Pc, choice: Choice): Option<(Shared, Pc)> {
    match pc
    case Other(_) => OtherAct(m, pc, choice)
    case Sub(_, _, _, _) => SubAct(m, pc, choice)
    case Unsub(_, _, _, _) => UnsubAct(m, pc)
    case Send(_) => SendAct(m, pc, choice)
    case Add(_, _, _, _) => (match AddAct(m.t, pc) case None => None case Some((t, next)) => Some((m.(t := t), next)))
    case Remove(_, _, _, _) => (match RemoveAct(m.t, pc) case None => None case Some((t, next)) => Some((m.(t := t), next)))
    case SetValue(_, _, _) => (match SetAct(m, pc) case None => None case Some(next) => Some((m, next)))
  }

  /** The locks are those of the workers, so each lock has one holder at most. */
  function Owners(owner: map<Lock, TaskId>, t: TaskId, pc: Pc): map<Lock, TaskId> {
    map l | l in owner && (owner[l] != t || l in Held(pc)) :: owner[l]
  }

  /** Worker `t` moves: it gets a free lock it waits for (or, elsewhere, wants), or it acts and releases what it no longer holds. */
  ghost predicate Moves(g: Global, g': Global, t: TaskId, choice: Choice) {
    && t in g.tasks
    && var pc := g.tasks[t];
    if Awaited(pc).Some? then
      var (l, next) := Awaited(pc).value;
      l !in g.owner && g' == g.(owner := g.owner[l := t], tasks := g.tasks[t := next])
    else if pc.Other? && choice.Grab? then
      choice.l !in g.owner && g' == g.(owner := g.owner[choice.l := t], tasks := g.tasks[t := Other(pc.held + {choice.l})])
    else
      && Act(g.m, pc, choice).Some?
      && var (m, next) := Act(g.m, pc, choice).value;
      g' == Global(Owners(g.owner, t, next), g.tasks[t := next], m)
  }

  /** No worker is in a call, there are no subscriptions, and the names in use are those of the live topics, with empty lists. */
  ghost predicate Starts(g: Global) {
    g.owner == map[] && (forall t | t in g.tasks :: g.tasks[t] == DONE)
    && g.m.subs == {} && g.m.values == {} && g.m.times == {} && g.m.failed == {}
    && (forall c | c in g.m.clients :: g.m.clients[c] == map[] && c < g.m.nextClient)
    && var t := g.m.t;
    && (forall i :: i in t.lists <==> 0 <= i < t.nextTopic)
    && (forall i | i in t.lists :: t.lists[i] == {})
    && t.live == t.title.Keys == t.lists.Keys == t.known && t.cleansed == {}
    && (forall n | n in t.names :: t.names[n] in t.title && t.title[t.names[n]] == n)
    && (forall i | i in t.title :: Lookup(t.names, t.title[i]) == Some(i))
  }

  ghost predicate IsInterleaving(gs: seq<Global>, ts: seq<TaskId>, choices: seq<Choice>) {
    && |gs| == |ts| + 1 == |choices| + 1
    && Starts(gs[0])
    && (forall k | 0 <= k < |ts| :: Moves(gs[k], gs[k + 1], ts[k], choices[k]))
  }

  // ---- the invariant ----

  /** Mutual exclusion: a lock's owner is the one worker that holds it. */
  ghost predicate LocksOk(owner: map<Lock, TaskId>, tasks: map<TaskId, Pc>) {
    && (forall l | l in owner :: owner[l] in tasks && l in Held(tasks[owner[l]]))
    && (forall t, l | t in tasks && l in Held(tasks[t]) :: l in owner && owner[l] == t)
  }

  /** The worker works on a subscription id of its own. */
  predicate HasId(pc: Pc) {
    || (pc.Sub? && pc.sub in {SWantTopics, SLoop, SWantTimes, SInsertTime, SWantValues, SInsertValue, SWantSubs, SInsertSub, SBind})
    || (pc.Unsub? && pc.unsub in {UWantTopicSubMap, UForget, UWantSubs, URemoveSub, UWantValues, URemoveValue, UWantTimes, URemoveTime})
  }

  /** The worker's subscription is in no list: not yet, or not any more. */
  predicate Unlists(pc: Pc) {
    || (pc.Sub? && pc.sub in {SWantTopics, SLoop})
    || (pc.Unsub? && pc.unsub in {UWantSubs, URemoveSub, UWantValues, URemoveValue, UWantTimes, URemoveTime})
  }

  /** The worker's subscription is in lists and has no store yet. */
  predicate Storing(pc: Pc) {
    pc.Sub? && pc.sub in {SWantTimes, SInsertTime, SWantValues, SInsertValue}
  }

  ghost predicate Unlisted(lists: map<TopicIdx, set<SubIdx>>, s: SubIdx) {
    forall i | i in lists :: s !in lists[i]
  }

  /** How far a worker has come with its subscription. */
  ghost predicate SubProgress(pc: Pc, m: Shared) {
    && (pc.Sub? && !pc.sub.SWantClients? && !pc.sub.SCheck? ==> pc.c in m.clients)
    && (pc.Sub? && pc.sub in {SWantValues, SInsertValue, SWantSubs, SInsertSub, SBind} ==> pc.s in m.times)
    && (pc.Sub? && pc.sub in {SWantSubs, SInsertSub, SBind} ==> pc.s in m.values)
    && (pc.Sub? && HasId(pc) ==> pc.s !in m.failed)
    && (pc.Sub? && (Unlists(pc) || Storing(pc)) ==> pc.s !in m.values)
    && (pc.Sub? && pc.sub.SBind? ==> pc.s in m.subs)
    && (pc.Unsub? && pc.unsub in {UWantValues, URemoveValue, UWantTimes, URemoveTime} ==> pc.s !in m.subs)
    && (pc.Unsub? && pc.unsub in {UWantTimes, URemoveTime} ==> pc.s !in m.values)
    && (Unlists(pc) ==> Unlisted(m.t.lists, pc.s))
  }

  /** The worker allocated a topic id and has not yet inserted its list. */
  predicate Adding(pc: Pc) {
    pc.Add? && pc.add in {AInsertTopic, AWantCount, AInsertCount, AWantName, AInsertName, AWantList, AInsertList}
  }

  /** Of these, it has inserted the name. */
  predicate Between(pc: Pc) {
    pc.Add? && pc.add in {AWantList, AInsertList}
  }

  /** The worker took the names of the ids whose lists it takes next. */
  predicate Dropping(pc: Pc) {
    pc.Remove? && pc.remove in {RWantLists, RDropLists}
  }

  /** The worker found its topic live. */
  predicate Checked(pc: Pc) {
    pc.SetValue? && pc.setting in {VWantValues, VWantLists, VQueue}
  }

  /** How far a worker has come with its topic. */
  ghost predicate TopicProgress(pc: Pc, t: TopicShare) {
    && (Adding(pc) ==> pc.id !in t.lists && (pc.id in t.known <==> Between(pc)))
    && (Adding(pc) && !pc.add.AInsertTopic? ==> pc.id in t.title && t.title[pc.id] == pc.n)
    && (Adding(pc) && pc.add.AInsertTopic? ==> pc.id !in t.title)
    && (Adding(pc) && !pc.add.AInsertTopic? && !Between(pc) ==> pc.id in t.live)
    && (pc.Remove? ==> pc.id in t.known)
    && (Checked(pc) ==> pc.id in t.title)
    && (Dropping(pc) ==> pc.gone <= t.known && pc.gone !! t.names.Values)
  }

  ghost predicate Progress(pc: Pc, m: Shared) {
    SubProgress(pc, m) && TopicProgress(pc, m.t)
  }

  /** Ids of workers are used, belong to no client and to no other worker. */
  ghost predicate IdsOk(tasks: map<TaskId, Pc>, m: Shared) {
    && (forall t | t in tasks && HasId(tasks[t]) :: tasks[t].s < m.nextSub && Unbound(m.clients, tasks[t].s))
    && (forall t, r | t in tasks && r in tasks && t != r && HasId(tasks[t]) && HasId(tasks[r]) :: tasks[t].s != tasks[r].s)
  }

  /** Each topic id has a list, or lost it, or is being added by one worker. */
  ghost predicate TopicIdsOk(tasks: map<TaskId, Pc>, t: TopicShare) {
    && (forall a | a in tasks && Adding(tasks[a]) :: tasks[a].id < t.nextTopic)
    && (forall a, b | a in tasks && b in tasks && a != b && Adding(tasks[a]) && Adding(tasks[b]) :: tasks[a].id != tasks[b].id)
    && (forall i | 0 <= i < t.nextTopic :: Accounted(tasks, t, i))
  }

  predicate AddsId(pc: Pc, i: TopicIdx) {
    Adding(pc) && pc.id == i
  }

  ghost predicate Accounted(tasks: map<TaskId, Pc>, t: TopicShare, i: TopicIdx) {
    i in t.lists || i in t.cleansed || exists a :: a in tasks && AddsId(tasks[a], i)
  }

  ghost predicate Unbound(clients: map<ClientIdx, map<SubUID, SubIdx>>, s: SubIdx) {
    forall c, u | c in clients && u in clients[c] :: clients[c][u] != s
  }

  ghost predicate BoundOk(m: Shared) {
    && (forall c | c in m.clients :: c < m.nextClient)
    && (forall c, u | c in m.clients && u in m.clients[c] :: m.clients[c][u] < m.nextSub)
    && (forall c, u, d, w | c in m.clients && u in m.clients[c] && d in m.clients && w in m.clients[d] && m.clients[c][u] == m.clients[d][w] :: c == d && u == w)
  }

  ghost predicate AllProgress(tasks: map<TaskId, Pc>, m: Shared) {
    forall t | t in tasks :: Progress(tasks[t], m)
  }

  /** Every subscription can be looked up in both other tables. */
  predicate Findable(m: Shared) {
    m.subs <= m.values && m.subs <= m.times
  }

  /** Names stand for the ids allocated for them, which did not lose their lists. */
  ghost predicate NamesOk(t: TopicShare) {
    && (forall n | n in t.names :: t.names[n] in t.title && t.title[t.names[n]] == n && t.names[n] in t.known && t.names[n] !in t.cleansed)
    && t.live <= t.title.Keys && t.known <= t.title.Keys && t.cleansed <= t.known
    && (forall i | i in t.title || i in t.lists :: i < t.nextTopic)
  }

  /** A failed subscription has no store. */
  ghost predicate FailedOk(m: Shared) {
    && m.failed !! m.values
    && (forall s | s in m.failed || s in m.values :: s < m.nextSub)
  }

  /** Each listed subscription has a store, or failed, or its worker is about to insert the store. */
  ghost predicate ListedOk(tasks: map<TaskId, Pc>, m: Shared) {
    forall i, s | i in m.t.lists && s in m.t.lists[i] :: Backed(tasks, m, s)
  }

  ghost predicate ListedUsed(m: Shared) {
    forall i, s | i in m.t.lists && s in m.t.lists[i] :: s < m.nextSub
  }

  predicate Stores(pc: Pc, s: SubIdx) {
    Storing(pc) && pc.s == s
  }

  ghost predicate Backed(tasks: map<TaskId, Pc>, m: Shared, s: SubIdx) {
    s in m.values || s in m.failed || exists a :: a in tasks && Stores(tasks[a], s)
  }

  ghost predicate LockInv(g: Global) {
    && LocksOk(g.owner, g.tasks)
    && IdsOk(g.tasks, g.m)
    && TopicIdsOk(g.tasks, g.m.t)
    && BoundOk(g.m)
    && AllProgress(g.tasks, g.m)
    && Findable(g.m)
    && NamesOk(g.m.t)
    && FailedOk(g.m)
    && ListedUsed(g.m)
    && ListedOk(g.tasks, g.m)
  }

  // ---- getting a lock ----

  /** The worker has the ids it had. */
  ghost predicate SameIds(pc: Pc, next: Pc) {
    && (HasId(next) <==> HasId(pc)) && (HasId(pc) ==> next.s == pc.s) && (Storing(pc) ==> Storing(next) && next.s == pc.s)
    && (Adding(next) <==> Adding(pc)) && (Adding(pc) ==> next.id == pc.id)
  }

  lemma {:induction false} AwaitedIds(pc: Pc)
    ensures Awaited(pc).Some? ==> SameIds(pc, Awaited(pc).value.1)
  {}

  /** A call that subscribes, unsubscribes or sends. */
  predicate OnSubs(pc: Pc) {
    pc.Sub? || pc.Unsub? || pc.Send?
  }

  lemma {:induction false} AwaitedHoldsSubs(pc: Pc)
    requires OnSubs(pc)
    ensures Awaited(pc).Some? ==> Held(Awaited(pc).value.1) == Held(pc) + {Awaited(pc).value.0}
  {
    hide AddHeld, RemoveHeld, SetHeld;
  }

  lemma {:induction false} AwaitedHoldsTopics(pc: Pc)
    requires !OnSubs(pc)
    ensures Awaited(pc).Some? ==> Held(Awaited(pc).value.1) == Held(pc) + {Awaited(pc).value.0}
  {
    hide SubHeld, UnsubHeld, SendHeld;
  }

  lemma {:induction false} AwaitedHolds(pc: Pc)
    ensures Awaited(pc).Some? ==> Held(Awaited(pc).value.1) == Held(pc) + {Awaited(pc).value.0}
  {
    hide Held, Awaited;
    if OnSubs(pc) {
      AwaitedHoldsSubs(pc);
    } else {
      AwaitedHoldsTopics(pc);
    }
  }

  lemma {:induction false} AwaitedProgress(pc: Pc, m: Shared)
    requires Awaited(pc).Some? && Progress(pc, m)
    ensures Progress(Awaited(pc).value.1, m)
  {
    hide Unlisted, Held;
  }

  lemma {:induction false} GrabLocks(owner: map<Lock, TaskId>, tasks: map<TaskId, Pc>, t: TaskId, l: Lock, next: Pc)
    requires LocksOk(owner, tasks) && t in tasks && l !in owner && Held(next) == Held(tasks[t]) + {l}
    ensures LocksOk(owner[l := t], tasks[t := next])
  {
    hide Held;
  }

  lemma {:induction false} DropLocks(owner: map<Lock, TaskId>, tasks: map<TaskId, Pc>, t: TaskId, next: Pc)
    requires LocksOk(owner, tasks) && t in tasks && Held(next) <= Held(tasks[t])
    ensures LocksOk(Owners(owner, t, next), tasks[t := next])
  {
    hide Held;
  }

  lemma {:induction false} Exclusive(owner: map<Lock, TaskId>, tasks: map<TaskId, Pc>, t: TaskId, r: TaskId)
    requires LocksOk(owner, tasks) && t in tasks && r in tasks && t != r
    ensures Held(tasks[t]) !! Held(tasks[r])
  {
    hide Held;
    forall l | l in Held(tasks[t]) ensures l !in Held(tasks[r]) {
      assert owner[l] == t;
    }
  }

  lemma {:induction false} GrabTopicIds(tasks: map<TaskId, Pc>, t: TopicShare, a: TaskId, next: Pc)
    requires a in tasks && SameIds(tasks[a], next) && TopicIdsOk(tasks, t)
    ensures TopicIdsOk(tasks[a := next], t)
  {
    hide HasId, Adding, Storing;
    var tasks' := tasks[a := next];
    forall i | 0 <= i < t.nextTopic ensures Accounted(tasks', t, i) {
      assert Accounted(tasks, t, i);
      if b :| b in tasks && AddsId(tasks[b], i) {
        assert AddsId(tasks'[b], i);
      }
    }
  }

  lemma {:induction false} GrabListed(tasks: map<TaskId, Pc>, m: Shared, a: TaskId, next: Pc)
    requires a in tasks && SameIds(tasks[a], next) && ListedOk(tasks, m)
    ensures ListedOk(tasks[a := next], m)
  {
    hide HasId, Adding, Storing;
    var tasks' := tasks[a := next];
    forall i, s | i in m.t.lists && s in m.t.lists[i] ensures Backed(tasks', m, s) {
      assert Backed(tasks, m, s);
      if b :| b in tasks && Stores(tasks[b], s) {
        assert Stores(tasks'[b], s);
      }
    }
  }

  lemma {:induction false} GrabIds(tasks: map<TaskId, Pc>, m: Shared, a: TaskId, next: Pc)
    requires a in tasks && SameIds(tasks[a], next) && Progress(next, m)
    requires IdsOk(tasks, m) && AllProgress(tasks, m)
    ensures IdsOk(tasks[a := next], m) && AllProgress(tasks[a := next], m)
  {
    hide Progress, HasId, Unbound, Adding, Storing;
  }

  /** Getting a lock changes no table. */
  lemma {:induction false} GrabInv(g: Global, t: TaskId, l: Lock, next: Pc)
    requires LockInv(g) && t in g.tasks && l !in g.owner && Held(next) == Held(g.tasks[t]) + {l}
    requires SameIds(g.tasks[t], next) && Progress(next, g.m)
    ensures LockInv(g.(owner := g.owner[l := t], tasks := g.tasks[t := next]))
  {
    hide Held, LocksOk, IdsOk, TopicIdsOk, ListedOk, AllProgress, BoundOk, Findable, NamesOk, FailedOk, ListedUsed, SameIds, Progress;
    GrabLocks(g.owner, g.tasks, t, l, next);
    GrabIds(g.tasks, g.m, t, next);
    GrabTopicIds(g.tasks, g.m.t, t, next);
    GrabListed(g.tasks, g.m, t, next);
  }

  // ---- acting ----

  lemma {:induction false} SubActHolds(m: Shared, pc: Pc, choice: Choice)
    requires pc.Sub? && SubAct(m, pc, choice).Some?
    ensures Held(SubAct(m, pc, choice).value.1) <= Held(pc)
  {
    hide LoopFails, Wanted, Pushed, Bound, AddHeld, RemoveHeld, SetHeld, UnsubHeld, SendHeld;
  }

  lemma {:induction false} UnsubActHolds(m: Shared, pc: Pc)
    requires pc.Unsub? && UnsubAct(m, pc).Some?
    ensures Held(UnsubAct(m, pc).value.1) <= Held(pc)
  {
    hide Forgotten, AddHeld, RemoveHeld, SetHeld, SubHeld, SendHeld;
  }

  lemma {:induction false} ActHoldsSubs(m: Shared, pc: Pc, choice: Choice)
    requires OnSubs(pc) && Act(m, pc, choice).Some?
    ensures Held(Act(m, pc, choice).value.1) <= Held(pc)
  {
    hide SubAct, UnsubAct, SubHeld, UnsubHeld, AddHeld, RemoveHeld, SetHeld;
    match pc
    case Sub(_, _, _, _) => SubActHolds(m, pc, choice);
    case Unsub(_, _, _, _) => UnsubActHolds(m, pc);
    case _ =>
  }

  lemma {:induction false} ActHoldsTopics(m: Shared, pc: Pc, choice: Choice)
    requires !OnSubs(pc) && Act(m, pc, choice).Some?
    ensures Held(Act(m, pc, choice).value.1) <= Held(pc)
  {
    hide Awaited, QueueFinds, PubMeta, SubMeta;
  }

  lemma {:induction false} ActHolds(m: Shared, pc: Pc, choice: Choice)
    requires Act(m, pc, choice).Some?
    ensures Held(Act(m, pc, choice).value.1) <= Held(pc)
  {
    hide Held, Act;
    if OnSubs(pc) {
      ActHoldsSubs(m, pc, choice);
    } else {
      ActHoldsTopics(m, pc, choice);
    }
  }

  /** What an action does to the ids: the worker keeps its id, gets the next one, gets one that a client gave up, or has none any more. */
  ghost predicate IdMove(m: Shared, m': Shared, pc: Pc, next: Pc) {
    && m'.nextSub >= m.nextSub
    && (HasId(next) ==> Unbound(m'.clients, next.s) && next.s < m'.nextSub)
    && (HasId(next) ==> (HasId(pc) && next.s == pc.s) || (next.s == m.nextSub < m'.nextSub) || (!Unbound(m.clients, next.s) && Unbound(m'.clients, next.s)))
  }

  /** The same for topic ids; and no id gets lost. */
  ghost predicate TopicIdMove(t: TopicShare, t': TopicShare, pc: Pc, next: Pc) {
    && t'.nextTopic >= t.nextTopic
    && (Adding(next) ==> next.id < t'.nextTopic && ((Adding(pc) && next.id == pc.id) || next.id >= t.nextTopic))
    && (forall i | 0 <= i < t'.nextTopic ::
          || i in t'.lists || i in t'.cleansed || AddsId(next, i)
          || (i < t.nextTopic && i !in t.lists && i !in t.cleansed && !AddsId(pc, i)))
  }

  /** What is listed now is backed by the tables or this worker, or was listed before and backed by another. */
  ghost predicate ListMove(m: Shared, m': Shared, pc: Pc, next: Pc) {
    forall i, s | i in m'.t.lists && s in m'.t.lists[i] ::
      || s in m'.values || s in m'.failed || Stores(next, s)
      || (i in m.t.lists && s in m.t.lists[i] && s !in m.values && s !in m.failed && !Stores(pc, s))
  }

  /** What the acting worker answers for. */
  ghost predicate OwnAct(m: Shared, m': Shared, pc: Pc, next: Pc) {
    && BoundOk(m') && Findable(m') && NamesOk(m'.t) && FailedOk(m') && ListedUsed(m') && Progress(next, m')
    && IdMove(m, m', pc, next) && TopicIdMove(m.t, m'.t, pc, next) && ListMove(m, m', pc, next)
  }

  /** What it can rely on. */
  ghost predicate Ready(m: Shared, pc: Pc) {
    && BoundOk(m) && Findable(m) && NamesOk(m.t) && FailedOk(m) && Progress(pc, m)
    && (HasId(pc) ==> pc.s < m.nextSub && Unbound(m.clients, pc.s))
    && (Adding(pc) ==> pc.id < m.t.nextTopic)
    && ListedUsed(m)
  }

  lemma {:induction false} BindOk(m: Shared, c: ClientIdx, u: SubUID, s: SubIdx)
    requires BoundOk(m) && c in m.clients && Unbound(m.clients, s) && s < m.nextSub
    ensures BoundOk(m.(clients := m.clients[c := Bound(m.clients[c], u, s)]))
  {
    var clients' := m.clients[c := Bound(m.clients[c], u, s)];
    forall d, w | d in clients' && w in clients'[d] && (d != c || w != u)
      ensures d in m.clients && w in m.clients[d] && clients'[d][w] == m.clients[d][w] != s
    {}
    hide Unbound;
  }

  lemma {:induction false} UnbindOk(m: Shared, c: ClientIdx, u: SubUID)
    requires BoundOk(m) && c in m.clients && u in m.clients[c]
    ensures var m' := m.(clients := m.clients[c := m.clients[c] - {u}]);
      BoundOk(m') && Unbound(m'.clients, m.clients[c][u]) && !Unbound(m.clients, m.clients[c][u])
  {}

  /** Topic ids and lists are as they were, and stores and failures are. */
  lemma {:induction false} SameListsMove(m: Shared, m': Shared, pc: Pc, next: Pc)
    requires m'.t == m.t && m'.values == m.values && m'.failed == m.failed && m'.nextSub >= m.nextSub
    requires !Adding(pc) && !Adding(next) && (Storing(pc) ==> Storing(next) && next.s == pc.s)
    requires ListedUsed(m)
    ensures TopicIdMove(m.t, m'.t, pc, next) && ListMove(m, m', pc, next) && ListedUsed(m')
  {
    hide Storing, Adding;
  }

  lemma {:induction false} BoundFrame(m: Shared, m': Shared)
    requires BoundOk(m)
    ensures m'.clients == m.clients && m'.nextClient == m.nextClient && m'.nextSub >= m.nextSub ==> BoundOk(m')
  {}

  lemma {:induction false} SubActEarly(m: Shared, pc: Pc, choice: Choice)
    requires Ready(m, pc) && pc.Sub? && pc.sub in {SCheck, STakeId} && Act(m, pc, choice).Some?
    ensures OwnAct(m, Act(m, pc, choice).value.0, pc, Act(m, pc, choice).value.1)
  {
    var (m', next) := Act(m, pc, choice).value;
    BoundFrame(m, m');
    assert Unbound(m.clients, m.nextSub) && Unlisted(m.t.lists, m.nextSub);
    SameListsMove(m, m', pc, next);
    hide Unbound, BoundOk, Unlisted, TopicIdMove, ListMove, NamesOk;
  }

  lemma {:induction false} SubActLate(m: Shared, pc: Pc, choice: Choice)
    requires Ready(m, pc) && pc.Sub? && pc.sub in {SInsertTime, SInsertSub} && Act(m, pc, choice).Some?
    ensures OwnAct(m, Act(m, pc, choice).value.0, pc, Act(m, pc, choice).value.1)
  {
    hide Unbound, BoundOk, Unlisted, TopicIdMove, ListMove, ListedUsed, NamesOk, Awaited, Held;
    var (m', next) := Act(m, pc, choice).value;
    BoundFrame(m, m');
    SameListsMove(m, m', pc, next);
  }

  lemma {:induction false} SubActBind(m: Shared, pc: Pc, choice: Choice)
    requires Ready(m, pc) && pc.Sub? && pc.sub.SBind? && Act(m, pc, choice).Some?
    ensures OwnAct(m, Act(m, pc, choice).value.0, pc, Act(m, pc, choice).value.1)
  {
    hide Unbound, BoundOk, Unlisted, TopicIdMove, ListMove, ListedUsed, NamesOk, Bound, Awaited, Held;
    var (m', next) := Act(m, pc, choice).value;
    BindOk(m, pc.c, AsU32(pc.q.subuid), pc.s);
    SameListsMove(m, m', pc, next);
  }

  lemma {:induction false} SubActStore(m: Shared, pc: Pc, choice: Choice)
    requires Ready(m, pc) && pc.Sub? && pc.sub.SInsertValue?
    ensures Act(m, pc, choice).Some? && OwnAct(m, Act(m, pc, choice).value.0, pc, Act(m, pc, choice).value.1)
  {
    BoundFrame(m, Act(m, pc, choice).value.0);
    hide Unbound, BoundOk, Unlisted, NamesOk;
  }

  lemma {:induction false} PushedOk(t: TopicShare, ids: set<TopicIdx>, s: SubIdx, pc: Pc, next: Pc)
    requires NamesOk(t) && !Adding(pc) && !Adding(next)
    ensures var t' := t.(lists := Pushed(t.lists, ids, s)); NamesOk(t') && TopicIdMove(t, t', pc, next)
  {
    assert Pushed(t.lists, ids, s).Keys == t.lists.Keys;
    hide Adding, Pushed;
  }

  lemma {:induction false} PushedMove(m: Shared, m': Shared, ids: set<TopicIdx>, pc: Pc, next: Pc)
    requires pc.Sub? && !Storing(pc) && pc.s < m.nextSub && m'.t.lists == Pushed(m.t.lists, ids, pc.s)
    requires m'.values == m.values && m.failed <= m'.failed && m'.nextSub == m.nextSub && (Stores(next, pc.s) || pc.s in m'.failed)
    requires ListedUsed(m)
    ensures ListMove(m, m', pc, next) && ListedUsed(m')
  {
    hide Storing;
    forall i, s | i in m'.t.lists && s in m'.t.lists[i] && s != pc.s ensures s in m.t.lists[i] {}
  }

  lemma {:induction false} SubActLoop(m: Shared, pc: Pc, choice: Choice)
    requires Ready(m, pc) && pc.Sub? && pc.sub.SLoop? && Act(m, pc, choice).Some?
    ensures OwnAct(m, Act(m, pc, choice).value.0, pc, Act(m, pc, choice).value.1)
  {
    var (m', next) := Act(m, pc, choice).value;
    var ids := if LoopFails(m.t, pc.q) then choice.done else Wanted(m.t, pc.q);
    hide Wanted, LoopFails, Pushed, Unbound, BoundOk, Unlisted, NamesOk, TopicIdMove, ListMove;
    assert m'.t == m.t.(lists := Pushed(m.t.lists, ids, pc.s));
    BoundFrame(m, m');
    PushedOk(m.t, ids, pc.s, pc, next);
    PushedMove(m, m', ids, pc, next);
  }

  lemma {:induction false} SubActOwn(m: Shared, pc: Pc, choice: Choice)
    requires Ready(m, pc) && pc.Sub? && Awaited(pc).None? && Act(m, pc, choice).Some?
    ensures OwnAct(m, Act(m, pc, choice).value.0, pc, Act(m, pc, choice).value.1)
  {
    hide Ready, OwnAct, Act;
    if pc.sub in {SCheck, STakeId} {
      SubActEarly(m, pc, choice);
    } else if pc.sub.SLoop? {
      SubActLoop(m, pc, choice);
    } else if pc.sub.SInsertValue? {
      SubActStore(m, pc, choice);
    } else if pc.sub.SBind? {
      SubActBind(m, pc, choice);
    } else {
      SubActLate(m, pc, choice);
    }
  }

  lemma {:induction false} BoundUsed(m: Shared, c: ClientIdx, u: SubUID)
    requires BoundOk(m) && c in m.clients && u in m.clients[c]
    ensures m.clients[c][u] < m.nextSub
  {}

  lemma {:induction false} UnsubActFind(m: Shared, pc: Pc, choice: Choice)
    requires Ready(m, pc) && pc.Unsub? && pc.unsub.UFind?
    ensures Act(m, pc, choice).Some? && OwnAct(m, Act(m, pc, choice).value.0, pc, Act(m, pc, choice).value.1)
  {
    hide BoundOk, Unbound, Unlisted, NamesOk, TopicIdMove, ListMove, ListedUsed, Awaited, Held, SubAct, SendAct, AddAct, RemoveAct, SetAct, OtherAct;
    var (m', next) := Act(m, pc, choice).value;
    if pc.c in m.clients && pc.u in m.clients[pc.c] {
      BoundUsed(m, pc.c, pc.u);
      UnbindOk(m, pc.c, pc.u);
    }
    SameListsMove(m, m', pc, next);
  }

  lemma {:induction false} UnsubActRest(m: Shared, pc: Pc, choice: Choice)
    requires Ready(m, pc) && pc.Unsub? && !pc.unsub.UFind? && Awaited(pc).None? && Act(m, pc, choice).Some?
    ensures OwnAct(m, Act(m, pc, choice).value.0, pc, Act(m, pc, choice).value.1)
  {
    hide Unbound, BoundOk, NamesOk, Awaited, Held, SubAct, SendAct, AddAct, RemoveAct, SetAct, OtherAct;
    var (m', next) := Act(m, pc, choice).value;
    BoundFrame(m, m');
    KeysKept(m, m');
  }

  /** Names are judged by the keys of the lists, not by their contents. */
  lemma {:induction false} KeysKept(m: Shared, m': Shared)
    requires NamesOk(m.t)
    ensures m'.t == m.t.(lists := m'.t.lists) && m'.t.lists.Keys == m.t.lists.Keys ==> NamesOk(m'.t)
  {}

  lemma {:induction false} RestActOwn(m: Shared, pc: Pc, choice: Choice)
    requires Ready(m, pc) && (pc.Send? || pc.SetValue?) && Awaited(pc).None? && Act(m, pc, choice).Some?
    ensures OwnAct(m, Act(m, pc, choice).value.0, pc, Act(m, pc, choice).value.1)
  {
    var (m', next) := Act(m, pc, choice).value;
    BoundFrame(m, m');
    SameListsMove(m, m', pc, next);
    hide TopicIdMove, ListMove, NamesOk, Unlisted, BoundOk, Unbound, QueueFinds;
  }

  lemma {:induction false} OtherActOwn(m: Shared, pc: Pc, choice: Choice)
    requires Ready(m, pc) && pc.Other? && Act(m, pc, choice).Some?
    ensures OwnAct(m, Act(m, pc, choice).value.0, pc, Act(m, pc, choice).value.1)
  {
    hide TopicIdMove, ListMove, ListedUsed, NamesOk, Unlisted, BoundOk, Held, Awaited;
    var (m', next) := Act(m, pc, choice).value;
    SeatsBound(m, choice);
    SameListsMove(m, m', pc, next);
  }

  lemma {:induction false} SeatsBound(m: Shared, choice: Choice)
    requires BoundOk(m)
    ensures BoundOk(m.(clients := m.clients[m.nextClient := map[]], nextClient := m.nextClient + 1))
    ensures choice.Disconnect? ==> BoundOk(m.(clients := m.clients - {choice.c}))
  {}

  // ---- acting on topics ----

  ghost predicate FewerListed(t: TopicShare, t': TopicShare) {
    forall i, s | i in t'.lists && s in t'.lists[i] :: i in t.lists && s in t.lists[i]
  }

  /** Only the topic tables change. */
  lemma {:induction false} TopicActOwn(m: Shared, pc: Pc, t': TopicShare, next: Pc)
    requires Ready(m, pc) && !pc.Sub? && !pc.Unsub? && !next.Sub? && !next.Unsub?
    requires NamesOk(t') && TopicProgress(next, t') && TopicIdMove(m.t, t', pc, next)
    requires FewerListed(m.t, t')
    ensures OwnAct(m, m.(t := t'), pc, next)
  {
    BoundFrame(m, m.(t := t'));
    hide NamesOk, TopicProgress, TopicIdMove, BoundOk, Unbound, Unlisted, Held;
  }

  lemma {:induction false} AddActTopics(t: TopicShare, pc: Pc)
    requires pc.Add? && Awaited(pc).None? && AddAct(t, pc).Some? && NamesOk(t) && TopicProgress(pc, t) && (Adding(pc) ==> pc.id < t.nextTopic)
    ensures var (t', next) := AddAct(t, pc).value;
      && !next.Sub? && !next.Unsub?
      && NamesOk(t') && TopicProgress(next, t') && TopicIdMove(t, t', pc, next)
      && FewerListed(t, t')
  {
    hide Held;
  }

  lemma {:induction false} TakeNames(t: TopicShare, pc: Pc)
    requires pc.Remove? && pc.remove.RTakeNames? && NamesOk(t) && TopicProgress(pc, t)
    ensures RemoveAct(t, pc).Some?
    ensures var (t', next) := RemoveAct(t, pc).value;
      && !next.Sub? && !next.Unsub?
      && NamesOk(t') && TopicProgress(next, t') && TopicIdMove(t, t', pc, next) && t'.lists == t.lists
  {
    hide PubMeta, SubMeta, Held;
  }

  lemma {:induction false} RemoveActTopics(t: TopicShare, pc: Pc)
    requires pc.Remove? && Awaited(pc).None? && RemoveAct(t, pc).Some? && NamesOk(t) && TopicProgress(pc, t)
    ensures var (t', next) := RemoveAct(t, pc).value;
      && !next.Sub? && !next.Unsub?
      && NamesOk(t') && TopicProgress(next, t') && TopicIdMove(t, t', pc, next)
      && FewerListed(t, t')
  {
    if pc.remove.RTakeNames? {
      hide *;
      TakeNames(t, pc);
    } else {
      hide PubMeta, SubMeta, Held;
    }
  }

  lemma {:induction false} ActOwn(m: Shared, pc: Pc, choice: Choice)
    requires Ready(m, pc) && Awaited(pc).None? && Act(m, pc, choice).Some?
    ensures OwnAct(m, Act(m, pc, choice).value.0, pc, Act(m, pc, choice).value.1)
  {
    hide OwnAct, SubAct, UnsubAct, SendAct, OtherAct, SetAct, AddAct, RemoveAct, Awaited, NamesOk, TopicProgress, TopicIdMove, BoundOk, Findable, FailedOk;
    match pc {
      case Sub(_, _, _, _) => SubActOwn(m, pc, choice);
      case Unsub(_, _, _, stage) => if stage.UFind? { UnsubActFind(m, pc, choice); } else { UnsubActRest(m, pc, choice); }
      case Other(_) => OtherActOwn(m, pc, choice);
      case Add(_, _, _, _) =>
        AddActTopics(m.t, pc);
        TopicActOwn(m, pc, AddAct(m.t, pc).value.0, AddAct(m.t, pc).value.1);
      case Remove(_, _, _, _) =>
        RemoveActTopics(m.t, pc);
        TopicActOwn(m, pc, RemoveAct(m.t, pc).value.0, RemoveAct(m.t, pc).value.1);
      case _ => RestActOwn(m, pc, choice);
    }
  }

  // ---- the others ----

  /** No other worker can tell: its ids stay its own, and what it relies on stays true. */
  ghost predicate Unnoticed(m': Shared, other: Pc) {
    && (HasId(other) ==> Unbound(m'.clients, other.s))
    && Progress(other, m')
  }

  /** The locks make the difference: a worker that relies on a client's presence holds the lock a disconnect needs. */
  lemma {:induction false} UnnoticedSub(m: Shared, pc: Pc, other: Pc, choice: Choice)
    requires Awaited(pc).None? && Act(m, pc, choice).Some?
    requires SubProgress(other, m) && (HasId(other) ==> Unbound(m.clients, other.s))
    requires HasId(pc) && HasId(other) ==> pc.s != other.s
    requires !(Clients in Held(pc) && Clients in Held(other))
    ensures var m' := Act(m, pc, choice).value.0; SubProgress(other, m') && (HasId(other) ==> Unbound(m'.clients, other.s))
  {
    hide LoopFails, Wanted, QueueFinds, PubMeta, SubMeta;
  }

  lemma {:induction false} UnnoticedTopic(m: Shared, pc: Pc, other: Pc, choice: Choice)
    requires Awaited(pc).None? && Act(m, pc, choice).Some?
    requires TopicProgress(pc, m.t) && TopicProgress(other, m.t) && NamesOk(m.t)
    requires Adding(pc) && Adding(other) ==> pc.id != other.id
    requires Adding(other) ==> other.id < m.t.nextTopic
    ensures TopicProgress(other, Act(m, pc, choice).value.0.t)
  {
    hide LoopFails, Wanted, QueueFinds, PubMeta, SubMeta, Held;
  }

  lemma {:induction false} ActUnnoticed(g: Global, t: TaskId, r: TaskId, choice: Choice)
    requires LockInv(g) && t in g.tasks && r in g.tasks && r != t && Awaited(g.tasks[t]).None? && Act(g.m, g.tasks[t], choice).Some?
    ensures Unnoticed(Act(g.m, g.tasks[t], choice).value.0, g.tasks[r])
  {
    var pc, other := g.tasks[t], g.tasks[r];
    assert Progress(other, g.m) && Progress(pc, g.m) && (HasId(other) ==> Unbound(g.m.clients, other.s));
    assert HasId(pc) && HasId(other) ==> pc.s != other.s;
    assert Adding(pc) && Adding(other) ==> pc.id != other.id;
    assert Adding(other) ==> other.id < g.m.t.nextTopic;
    Exclusive(g.owner, g.tasks, t, r);
    hide LocksOk, IdsOk, TopicIdsOk, BoundOk, AllProgress, Findable, NamesOk, FailedOk, ListedUsed, ListedOk, SubProgress, TopicProgress, Act, Held, HasId, Adding;
    UnnoticedSub(g.m, pc, other, choice);
    UnnoticedTopic(g.m, pc, other, choice);
  }

  // ---- together ----

  lemma {:induction false} ActIds(g: Global, t: TaskId, m': Shared, next: Pc)
    requires IdsOk(g.tasks, g.m) && BoundOk(g.m) && t in g.tasks && IdMove(g.m, m', g.tasks[t], next) && Progress(next, m')
    requires forall r | r in g.tasks && r != t :: Unnoticed(m', g.tasks[r])
    ensures IdsOk(g.tasks[t := next], m') && AllProgress(g.tasks[t := next], m')
  {
    hide Progress, Unbound;
    forall r | r in g.tasks && r != t && HasId(g.tasks[r]) && HasId(next) ensures next.s != g.tasks[r].s {
      assert Unnoticed(m', g.tasks[r]) && Unbound(g.m.clients, g.tasks[r].s);
    }
    forall r | r in g.tasks && r != t ensures Progress(g.tasks[r], m') {
      assert Unnoticed(m', g.tasks[r]);
    }
    forall r | r in g.tasks && r != t && HasId(g.tasks[r]) ensures Unbound(m'.clients, g.tasks[r].s) {
      assert Unnoticed(m', g.tasks[r]);
    }
  }

  lemma {:induction false} ActTopicIds(tasks: map<TaskId, Pc>, t: TopicShare, t': TopicShare, a: TaskId, next: Pc)
    requires TopicIdsOk(tasks, t) && a in tasks && TopicIdMove(t, t', tasks[a], next)
    ensures TopicIdsOk(tasks[a := next], t')
  {
    hide Adding;
    var tasks' := tasks[a := next];
    forall i | 0 <= i < t'.nextTopic ensures Accounted(tasks', t', i) {
      if AddsId(next, i) {
        assert AddsId(tasks'[a], i);
      } else if i !in t'.lists && i !in t'.cleansed {
        assert Accounted(tasks, t, i);
        var b :| b in tasks && AddsId(tasks[b], i);
        assert AddsId(tasks'[b], i);
      }
    }
  }

  lemma {:induction false} ActListed(tasks: map<TaskId, Pc>, m: Shared, m': Shared, a: TaskId, next: Pc)
    requires ListedOk(tasks, m) && a in tasks && ListMove(m, m', tasks[a], next)
    ensures ListedOk(tasks[a := next], m')
  {
    hide Storing;
    var tasks' := tasks[a := next];
    forall i, s | i in m'.t.lists && s in m'.t.lists[i] ensures Backed(tasks', m', s) {
      if Stores(next, s) {
        assert Stores(tasks'[a], s);
      } else if s !in m'.values && s !in m'.failed {
        assert Backed(tasks, m, s);
        var b :| b in tasks && Stores(tasks[b], s);
        assert Stores(tasks'[b], s);
      }
    }
  }

  lemma {:induction false} ReadyToAct(g: Global, t: TaskId)
    requires LockInv(g) && t in g.tasks
    ensures Ready(g.m, g.tasks[t])
  {
    hide LocksOk, BoundOk, Findable, NamesOk, FailedOk, ListedUsed, ListedOk, Progress, Unbound, Accounted;
    var pc := g.tasks[t];
    assert Progress(pc, g.m);
    assert HasId(pc) ==> pc.s < g.m.nextSub && Unbound(g.m.clients, pc.s);
    assert Adding(pc) ==> pc.id < g.m.t.nextTopic;
    hide IdsOk, TopicIdsOk, AllProgress, HasId, Adding;
  }

  lemma {:induction false} ActInv(g: Global, t: TaskId, choice: Choice)
    requires LockInv(g) && t in g.tasks && Awaited(g.tasks[t]).None? && Act(g.m, g.tasks[t], choice).Some?
    ensures var (m', next) := Act(g.m, g.tasks[t], choice).value;
      LockInv(Global(Owners(g.owner, t, next), g.tasks[t := next], m'))
  {
    hide Held, Act, Awaited, Progress, Ready, Owners, LocksOk, IdsOk, TopicIdsOk, BoundOk, AllProgress, Findable, NamesOk, FailedOk, ListedUsed, ListedOk, IdMove, TopicIdMove, ListMove, Unnoticed;
    var pc := g.tasks[t];
    var (m', next) := Act(g.m, pc, choice).value;
    ReadyToAct(g, t);
    ActOwn(g.m, pc, choice);
    ActHolds(g.m, pc, choice);
    DropLocks(g.owner, g.tasks, t, next);
    forall r | r in g.tasks && r != t ensures Unnoticed(m', g.tasks[r]) {
      ActUnnoticed(g, t, r, choice);
    }
    ActIds(g, t, m', next);
    ActTopicIds(g.tasks, g.m.t, m'.t, t, next);
    ActListed(g.tasks, g.m, m', t, next);
  }

  lemma {:induction false} OtherHas(pc: Pc, l: Lock)
    requires pc.Other?
    ensures var next := Other(pc.held + {l}); Held(next) == Held(pc) + {l} && SameIds(pc, next) && forall m :: Progress(next, m)
  {
    hide Unlisted;
  }

  lemma {:induction false} MovesInv(g: Global, g': Global, t: TaskId, choice: Choice)
    requires LockInv(g) && Moves(g, g', t, choice)
    ensures LockInv(g')
  {
    hide LocksOk, IdsOk, TopicIdsOk, BoundOk, Findable, NamesOk, FailedOk, ListedUsed, ListedOk, Held, Act, Owners, Progress, SameIds, Awaited;
    var pc := g.tasks[t];
    assert Progress(pc, g.m);
    hide LockInv, AllProgress;
    if Awaited(pc).Some? {
      var (l, next) := Awaited(pc).value;
      AwaitedHolds(pc);
      AwaitedIds(pc);
      AwaitedProgress(pc, g.m);
      GrabInv(g, t, l, next);
    } else if pc.Other? && choice.Grab? {
      OtherHas(pc, choice.l);
      GrabInv(g, t, choice.l, Other(pc.held + {choice.l}));
    } else {
      ActInv(g, t, choice);
    }
  }

  lemma {:induction false} StartsInv(g: Global)
    requires Starts(g)
    ensures LockInv(g)
  {}

  lemma {:induction false} RunLocks(gs: seq<Global>, ts: seq<TaskId>, choices: seq<Choice>, k: nat)
    requires IsInterleaving(gs, ts, choices) && k < |gs|
    ensures LockInv(gs[k])
  {
    hide LockInv, Starts;
    if k == 0 {
      StartsInv(gs[0]);
    } else {
      RunLocks(gs, ts, choices, k - 1);
      assert Moves(gs[k - 1], gs[k], ts[k - 1], choices[k - 1]);
      MovesInv(gs[k - 1], gs[k], ts[k - 1], choices[k - 1]);
    }
  }

  // ---- sending out ----

  /** However the workers interleave: while a pass holds its locks, every subscription it can visit has
      its send time and its pending values, and no other worker holds any of the four locks. */
  lemma {:induction false} ExpectsNeverFail(gs: seq<Global>, ts: seq<TaskId>, choices: seq<Choice>, k: nat, t: TaskId)
    requires IsInterleaving(gs, ts, choices) && k < |gs| && t in gs[k].tasks && gs[k].tasks[t] == Send(NLoop)
    ensures forall s | s in gs[k].m.subs :: s in gs[k].m.values && s in gs[k].m.times
    ensures forall r | r in gs[k].tasks && r != t :: Held(gs[k].tasks[r]) !! {Subscriptions, SubValues, SendTimes, Clients}
  {
    hide Moves, Starts, IdsOk, TopicIdsOk, BoundOk, AllProgress, LocksOk, NamesOk, FailedOk, ListedUsed, ListedOk, SubHeld, UnsubHeld, AddHeld, RemoveHeld, SetHeld;
    RunLocks(gs, ts, choices, k);
    forall r | r in gs[k].tasks && r != t ensures Held(gs[k].tasks[r]) !! {Subscriptions, SubValues, SendTimes, Clients} {
      Exclusive(gs[k].owner, gs[k].tasks, t, r);
    }
  }

  /** And the tables stay the same under it while others move. */
  lemma {:induction false} TablesStandStill(gs: seq<Global>, ts: seq<TaskId>, choices: seq<Choice>, k: nat, t: TaskId)
    requires IsInterleaving(gs, ts, choices) && k < |ts| && t in gs[k].tasks && gs[k].tasks[t] == Send(NLoop) && ts[k] != t
    ensures t in gs[k + 1].tasks && gs[k + 1].tasks[t] == Send(NLoop)
    ensures gs[k + 1].m.subs == gs[k].m.subs && gs[k + 1].m.values == gs[k].m.values && gs[k + 1].m.times == gs[k].m.times && gs[k + 1].m.clients == gs[k].m.clients
  {
    hide LockInv, Starts;
    RunLocks(gs, ts, choices, k);
    assert Moves(gs[k], gs[k + 1], ts[k], choices[k]);
    var pc := gs[k].tasks[ts[k]];
    hide IsInterleaving;
    OwnersOk(gs[k]);
    Exclusive(gs[k].owner, gs[k].tasks, ts[k], t);
    StillAct(gs[k].m, pc, choices[k]);
    hide Act, Held;
  }

  lemma {:induction false} OwnersOk(g: Global)
    requires LockInv(g)
    ensures LocksOk(g.owner, g.tasks)
  {
    hide LocksOk, IdsOk, TopicIdsOk, BoundOk, AllProgress, Findable, NamesOk, FailedOk, ListedUsed, ListedOk;
  }

  lemma {:induction false} StillAct(m: Shared, pc: Pc, choice: Choice)
    requires Held(pc) !! Held(Send(NLoop))
    ensures Awaited(pc).None? && Act(m, pc, choice).Some? ==>
      var m' := Act(m, pc, choice).value.0; m'.subs == m.subs && m'.values == m.values && m'.times == m.times && m'.clients == m.clients
  {
    hide LoopFails, Wanted, QueueFinds, PubMeta, SubMeta, AddHeld, RemoveHeld, SetHeld;
  }

  // ---- subscribing while a topic is added ----

  /** A worker inserted a name that this subscription matches and has yet to insert its list. */
  predicate Exposes(pc: Pc, t: TopicShare, q: Subscription) {
    pc.Add? && pc.add.AWantList? && q.CaresAbout(pc.n) && Lookup(t.names, pc.n) == Some(pc.id)
  }

  lemma {:induction false} ExposedName(g: Global, n: string)
    requires LockInv(g) && n in g.m.t.names && g.m.t.names[n] !in g.m.t.lists
    ensures exists a :: a in g.tasks && Between(g.tasks[a]) && g.tasks[a].n == n && g.tasks[a].id == g.m.t.names[n]
  {
    var i := g.m.t.names[n];
    assert i < g.m.t.nextTopic && i !in g.m.t.cleansed && i in g.m.t.known && g.m.t.title[i] == n;
    assert Accounted(g.tasks, g.m.t, i);
    var a :| a in g.tasks && AddsId(g.tasks[a], i);
    assert Progress(g.tasks[a], g.m);
    hide LocksOk, IdsOk, TopicIdsOk, BoundOk, AllProgress, Findable, NamesOk, FailedOk, ListedUsed, ListedOk, SubProgress, Held;
  }

  lemma {:induction false} ListPending(g: Global, a: TaskId)
    requires LockInv(g) && a in g.tasks && Between(g.tasks[a])
    ensures g.tasks[a].id !in g.m.t.lists
  {
    assert Progress(g.tasks[a], g.m);
    hide LocksOk, IdsOk, TopicIdsOk, BoundOk, AllProgress, Findable, NamesOk, FailedOk, ListedUsed, ListedOk, SubProgress, Held;
  }

  lemma {:induction false} LoopFailsWhen(g: Global, t: TaskId)
    requires LockInv(g) && t in g.tasks && g.tasks[t].Sub? && g.tasks[t].sub.SLoop?
    ensures LoopFails(g.m.t, g.tasks[t].q) <==> exists a :: a in g.tasks && Exposes(g.tasks[a], g.m.t, g.tasks[t].q)
  {
    var q := g.tasks[t].q;
    OwnersOk(g);
    hide LockInv, LocksOk, Subscription.CaresAbout;
    if LoopFails(g.m.t, q) {
      var n :| n in g.m.t.names && q.CaresAbout(n) && g.m.t.names[n] !in g.m.t.lists;
      ExposedName(g, n);
      var a :| a in g.tasks && Between(g.tasks[a]) && g.tasks[a].n == n && g.tasks[a].id == g.m.t.names[n];
      Exclusive(g.owner, g.tasks, t, a);
      assert TopicSubMap in Held(g.tasks[t]);
      assert Exposes(g.tasks[a], g.m.t, q);
    }
    if a :| a in g.tasks && Exposes(g.tasks[a], g.m.t, q) {
      ListPending(g, a);
      ExposedFails(g.tasks[a], g.m.t, q);
    }
  }

  lemma {:induction false} ExposedFails(pc: Pc, t: TopicShare, q: Subscription)
    requires Exposes(pc, t, q) && pc.id !in t.lists
    ensures LoopFails(t, q)
  {
    hide Subscription.CaresAbout;
    assert pc.id in Wanted(t, q);
  }

  /** However the workers interleave, a subscribe takes its failing exit exactly if some worker is between inserting a name that
      the subscription matches and inserting the list of that name's id. */
  lemma {:induction false} SubscribeFailsIff(gs: seq<Global>, ts: seq<TaskId>, choices: seq<Choice>, k: nat, t: TaskId)
    requires IsInterleaving(gs, ts, choices) && k < |ts| && ts[k] == t && t in gs[k].tasks && gs[k].tasks[t].Sub? && gs[k].tasks[t].sub.SLoop?
    ensures t in gs[k + 1].tasks
    ensures gs[k + 1].tasks[t] == DONE <==> exists a :: a in gs[k].tasks && Exposes(gs[k].tasks[a], gs[k].m.t, gs[k].tasks[t].q)
  {
    hide LockInv, Starts, Exposes, Held, LoopFails, Wanted, Pushed;
    RunLocks(gs, ts, choices, k);
    assert Moves(gs[k], gs[k + 1], ts[k], choices[k]);
    LoopFailsWhen(gs[k], t);
  }

  // ---- setting a value meanwhile ----

  /** A subscribe with this id took the failing exit. */
  predicate FailsAt(g: Global, t: TaskId, s: SubIdx) {
    t in g.tasks && g.tasks[t].Sub? && g.tasks[t].sub.SLoop? && g.tasks[t].s == s && LoopFails(g.m.t, g.tasks[t].q)
  }

  lemma {:induction false} ActFailed(m: Shared, pc: Pc, choice: Choice)
    requires Act(m, pc, choice).Some?
    ensures Act(m, pc, choice).value.0.failed == m.failed + if pc.Sub? && pc.sub.SLoop? && LoopFails(m.t, pc.q) then {pc.s} else {}
  {
    hide LoopFails, Wanted, QueueFinds, PubMeta, SubMeta, Pushed, Forgotten, Bound;
  }

  lemma {:induction false} MoveFailed(g: Global, g': Global, t: TaskId, choice: Choice, s: SubIdx)
    requires Moves(g, g', t, choice)
    ensures s in g'.m.failed <==> s in g.m.failed || FailsAt(g, t, s)
  {
    hide Act, Held, LoopFails, Owners;
    if Act(g.m, g.tasks[t], choice).Some? {
      ActFailed(g.m, g.tasks[t], choice);
    }
  }

  /** The recorded failures are those of the interleaving. */
  lemma {:induction false} FailedBefore(gs: seq<Global>, ts: seq<TaskId>, choices: seq<Choice>, k: nat, s: SubIdx)
    requires IsInterleaving(gs, ts, choices) && k < |gs|
    ensures s in gs[k].m.failed <==> exists j :: 0 <= j < k && FailsAt(gs[j], ts[j], s)
  {
    hide Moves, FailsAt;
    if k > 0 {
      FailedBefore(gs, ts, choices, k - 1, s);
      MoveFailed(gs[k - 1], gs[k], ts[k - 1], choices[k - 1], s);
    }
  }

  lemma {:induction false} QueueFindsWhen(g: Global, t: TaskId)
    requires LockInv(g) && t in g.tasks && g.tasks[t].SetValue? && g.tasks[t].setting.VQueue?
    ensures var i := g.tasks[t].id;
      && (QueueFinds(g.m, i) <==> i in g.m.t.lists && g.m.t.lists[i] !! g.m.failed)
      && (i !in g.m.t.lists ==> i in g.m.t.cleansed || exists a :: a in g.tasks && AddsId(g.tasks[a], i))
  {
    var i := g.tasks[t].id;
    assert Progress(g.tasks[t], g.m);
    assert Accounted(g.tasks, g.m.t, i);
    hide IdsOk, TopicIdsOk, BoundOk, AllProgress, Findable, NamesOk, ListedUsed, SubProgress;
    forall a | a in g.tasks ensures !Storing(g.tasks[a]) {
      NotStoring(g, t, a);
    }
    if i in g.m.t.lists {
      forall s | s in g.m.t.lists[i] ensures s in g.m.failed || s in g.m.values {
        assert Backed(g.tasks, g.m, s);
      }
    }
  }

  lemma {:induction false} NotStoring(g: Global, t: TaskId, a: TaskId)
    requires LockInv(g) && t in g.tasks && a in g.tasks && TopicSubMap in Held(g.tasks[t]) && !g.tasks[t].Sub?
    ensures !Storing(g.tasks[a])
  {
    OwnersOk(g);
    hide LockInv, LocksOk, UnsubHeld, SendHeld, AddHeld, RemoveHeld, SetHeld;
    if a != t {
      Exclusive(g.owner, g.tasks, t, a);
    }
  }

  /** However the workers interleave, what `set_value` looks up under its locks is found exactly if the topic has a list and no
      subscription on it comes from a failed subscribe. Only a removed topic, or one still being added, has no list. */
  lemma {:induction false} SetValueFindsIff(gs: seq<Global>, ts: seq<TaskId>, choices: seq<Choice>, k: nat, t: TaskId)
    requires IsInterleaving(gs, ts, choices) && k < |gs| && t in gs[k].tasks && gs[k].tasks[t].SetValue? && gs[k].tasks[t].setting.VQueue?
    ensures var g, i := gs[k], gs[k].tasks[t].id;
      && (QueueFinds(g.m, i) <==> i in g.m.t.lists && forall s, j | s in g.m.t.lists[i] && 0 <= j < k :: !FailsAt(gs[j], ts[j], s))
      && (i !in g.m.t.lists ==> i in g.m.t.cleansed || exists a :: a in g.tasks && AddsId(g.tasks[a], i))
  {
    hide LockInv, Starts, Moves, FailsAt, QueueFinds, Held, AddsId;
    RunLocks(gs, ts, choices, k);
    QueueFindsWhen(gs[k], t);
    forall s { FailedBefore(gs, ts, choices, k, s); }
  }
}
