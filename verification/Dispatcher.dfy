/** Correlation-based request/response routing, each stretch between two awaits one step. */
module Dispatcher {
  import opened Util

  /** Response topic and correlation data. */
  datatype Key = Key(topic: string, correlation: seq<int>)

  /** An incoming message; `correlation` is None when it has no properties or no correlation data. */
  datatype Message = Message(topic: string, correlation: Option<seq<int>>, payload: seq<int>)

  datatype Future = Pending | Result(message: Message) | Cancelled | Failed

  type WaiterId = nat
  type InterestId = nat
  type ClaimId = nat
  type OpId = nat

  type TaskId = nat

  /**
   * A `_PendingRequest`; ids stand for object identity. `register` awaits the readiness task `ready`; `returned` says
   * that it has handed the request to its caller, who alone can close it.
   */
  datatype Waiter = Waiter(key: Key, future: Future, claimed: bool, closed: bool, ready: TaskId, returned: bool)

  /** A `_TopicInterest`; `ready` is its readiness task, if one has been started. */
  datatype Interest = Interest(topic: string, refcount: int, ready: Option<TaskId>)

  /** How far `add_response_observer` has come: waiting for the filter's guard, holding it until SUBACK, or over. */
  datatype Phase = Queued | Subscribing | Succeeded | Aborted

  /** A readiness task, on the connection with the given generation. */
  datatype Task = Task(topic: string, generation: nat, phase: Phase)

  /** An entry of the response-observer set of one connection. */
  datatype Observer = Observer(topic: string, generation: nat)

  datatype Claim = Claim(waiter: WaiterId, key: Key, message: Message, generation: nat)

  /**
   * A call of `remove_response_observer`. Readiness tasks numbered `behind` or later began after it and queue behind it
   * at the filter's guard; `acted` says that it has the guard and has taken the observer out.
   */
  datatype Removal = Removal(topic: string, generation: nat, behind: nat, acted: bool)

  /** A task suspended in `unregister`, at its first or its second await. */
  datatype Unregistering = AwaitReady(interest: InterestId, task: TaskId) | AwaitRemoval(removal: Removal)

  datatype State = State(
    capacity: int,
    free: int,
    pending: map<Key, WaiterId>,
    topics: map<string, InterestId>,
    waiters: seq<Waiter>,
    interests: seq<Interest>,
    bound: bool,
    generation: nat,
    unregistering: map<OpId, Unregistering>,
    claims: seq<Claim>,
    delivered: set<ClaimId>,
    tasks: seq<Task>,
    observers: set<Observer>)

  function KeysOn(pending: map<Key, WaiterId>, topic: string): set<Key> {
    set k | k in pending && k.topic == topic
  }

  /** The readiness task of the topic's own interest. */
  function Keeper(topics: map<string, InterestId>, interests: seq<Interest>, topic: string): Option<TaskId> {
    if topic in topics && topics[topic] < |interests| then interests[topics[topic]].ready else None
  }

  // Steps.

  /** `_ensure_topic_ready`, with a protocol bound. */
  function EnsureReady(s: State, i: InterestId): State
    requires i < |s.interests|
  {
    if s.interests[i].ready.Some? then s
    else s.(interests := s.interests[i := s.interests[i].(ready := Some(|s.tasks|))],
            tasks := s.tasks + [Task(s.interests[i].topic, s.generation, Queued)])
  }

  predicate Over(tasks: seq<Task>, k: TaskId, phase: Phase) { k < |tasks| && tasks[k].phase == phase }

  /** A waiter for `key` that awaits the readiness task its topic has, or is about to get. */
  function WaiterFor(topics: map<string, InterestId>, interests: seq<Interest>, tasks: seq<Task>, key: Key): Waiter {
    var keeper := Keeper(topics, interests, key.topic);
    var k := if keeper.Some? then keeper.value else |tasks|;
    Waiter(key, Pending, false, false, k, Over(tasks, k, Succeeded))
  }

  function FreshWaiter(s: State, key: Key): Waiter { WaiterFor(s.topics, s.interests, s.tasks, key) }

  /** `register` before it looks at readiness. */
  function Enrolled(s: State, key: Key): State
    requires key.topic in s.topics ==> s.topics[key.topic] < |s.interests|
  {
    var known := key.topic in s.topics;
    var i := if known then s.topics[key.topic] else |s.interests|;
    var interests := if known then s.interests else s.interests + [Interest(key.topic, 0, None)];
    s.(free := s.free - 1,
       topics := s.topics[key.topic := i],
       interests := interests[i := interests[i].(refcount := interests[i].refcount + 1)],
       waiters := s.waiters + [FreshWaiter(s, key)],
       pending := s.pending[key := |s.waiters|])
  }

  /** `register` from the moment it has a permit; on failure the permit goes straight back. */
  function Register(s: State, key: Key): State
    requires key.topic in s.topics ==> s.topics[key.topic] < |s.interests|
  {
    if key in s.pending || !s.bound then s
    else EnsureReady(Enrolled(s, key), Enrolled(s, key).topics[key.topic])
  }

  function Settle(s: State, w: WaiterId, outcome: Future): State
    requires w < |s.waiters|
  {
    if s.waiters[w].future.Pending? then s.(waiters := s.waiters[w := s.waiters[w].(future := outcome)]) else s
  }

  predicate Registered(pending: map<Key, WaiterId>, waiters: seq<Waiter>, w: WaiterId) {
    w < |waiters| && waiters[w].key in pending && pending[waiters[w].key] == w
  }

  predicate HasTopic(s: State, w: WaiterId) {
    w < |s.waiters| && s.waiters[w].key.topic in s.topics && s.topics[s.waiters[w].key.topic] < |s.interests|
  }

  /** The end of `unregister`: forget an unused interest, release the observer if it became active. */
  function ReleaseInterest(s: State, op: OpId, i: InterestId, active: bool): State
    requires i < |s.interests|
  {
    var topic := s.interests[i].topic;
    if s.interests[i].refcount == 0 && topic in s.topics && s.topics[topic] == i then
      var forgotten := s.(topics := s.topics - {topic});
      if active && s.bound then
        forgotten.(unregistering := s.unregistering[op := AwaitRemoval(Removal(topic, s.generation, |s.tasks|, false))])
      else forgotten.(free := s.free + 1, unregistering := s.unregistering - {op})
    else s.(free := s.free + 1, unregistering := s.unregistering - {op})
  }

  /** A waiter removed, its interest one lower, its permit not yet given back. */
  function Withdrawn(s: State, w: WaiterId): State
    requires HasTopic(s, w)
  {
    var key := s.waiters[w].key;
    var i := s.topics[key.topic];
    s.(pending := s.pending - {key},
       interests := s.interests[i := s.interests[i].(refcount := s.interests[i].refcount - 1)])
  }

  /** `unregister` once the waiter is withdrawn: done, or past the readiness task if that is over, or suspended on it. */
  function Suspend(s: State, op: OpId, i: InterestId): State
    requires i < |s.interests|
  {
    if s.interests[i].refcount > 0 then s.(free := s.free + 1)
    else if s.interests[i].ready.None? then ReleaseInterest(s, op, i, false)
    else
      var k := s.interests[i].ready.value;
      if Over(s.tasks, k, Succeeded) || Over(s.tasks, k, Aborted) then ReleaseInterest(s, op, i, Over(s.tasks, k, Succeeded))
      else s.(unregistering := s.unregistering[op := AwaitReady(i, k)])
  }

  /** `unregister` up to its first await. */
  function Unregister(s: State, op: OpId, w: WaiterId): State
    requires w < |s.waiters|
    requires Registered(s.pending, s.waiters, w) ==> HasTopic(s, w)
  {
    if !Registered(s.pending, s.waiters, w) then s
    else Suspend(Withdrawn(Settle(s, w, Cancelled), w), op, s.topics[s.waiters[w].key.topic])
  }

  /** `_PendingRequest.close`. */
  function Close(s: State, op: OpId, w: WaiterId): State
    requires w < |s.waiters|
    requires Registered(s.pending, s.waiters, w) ==> HasTopic(s, w)
  {
    if s.waiters[w].closed then s
    else Unregister(s.(waiters := s.waiters[w := s.waiters[w].(closed := true)]), op, w)
  }

  predicate OnTopic(topics: map<string, InterestId>, interests: seq<Interest>, i: InterestId) {
    i < |interests| && interests[i].topic in topics && topics[interests[i].topic] == i
  }

  function Unclaimed(pending: map<Key, WaiterId>, waiters: seq<Waiter>): seq<Waiter> {
    seq(|waiters|, w requires 0 <= w < |waiters| =>
      if Registered(pending, waiters, w) then waiters[w].(claimed := false) else waiters[w])
  }

  function Unready(topics: map<string, InterestId>, interests: seq<Interest>): seq<Interest> {
    seq(|interests|, i requires 0 <= i < |interests| =>
      if OnTopic(topics, interests, i) then interests[i].(ready := None) else interests[i])
  }

  function Bind(s: State): State {
    s.(bound := true, generation := s.generation + 1,
       waiters := Unclaimed(s.pending, s.waiters), interests := Unready(s.topics, s.interests))
  }

  function AllFailed(pending: map<Key, WaiterId>, waiters: seq<Waiter>): seq<Waiter> {
    seq(|waiters|, w requires 0 <= w < |waiters| =>
      if Registered(pending, waiters, w) && waiters[w].future.Pending? then waiters[w].(future := Failed) else waiters[w])
  }

  function CancelPending(s: State): State {
    s.(pending := map[], topics := map[], bound := false, generation := s.generation + 1,
       free := s.free + |s.pending|, waiters := AllFailed(s.pending, s.waiters))
  }

  function KeyOf(m: Message): Option<Key> {
    if m.correlation.Some? then Some(Key(m.topic, m.correlation.value)) else None
  }

  predicate Claimable(s: State, m: Message) {
    KeyOf(m).Some? && KeyOf(m).value in s.pending && Open(s, s.pending[KeyOf(m).value])
  }

  predicate Open(s: State, w: WaiterId) {
    w < |s.waiters| && !s.waiters[w].claimed && s.waiters[w].future.Pending?
  }

  function MakeClaim(s: State, m: Message): State {
    if !Claimable(s, m) then s
    else
      var w := s.pending[KeyOf(m).value];
      s.(waiters := s.waiters[w := s.waiters[w].(claimed := true)],
         claims := s.claims + [Claim(w, KeyOf(m).value, m, s.generation)])
  }

  function Complete(s: State, c: ClaimId): State
    requires c < |s.claims|
  {
    var claim := s.claims[c];
    var told := s.(delivered := s.delivered + {c});
    if s.generation == claim.generation && claim.key in s.pending && s.pending[claim.key] == claim.waiter &&
       claim.waiter < |s.waiters|
    then Settle(told, claim.waiter, Result(claim.message))
    else told
  }

  // The connection: readiness tasks and removals, one at a time for each filter.

  predicate Holds(tasks: seq<Task>, k: int, topic: string, generation: nat) {
    0 <= k < |tasks| && tasks[k] == Task(topic, generation, Subscribing)
  }

  predicate Unheld(tasks: seq<Task>, topic: string, generation: nat) {
    forall k :: 0 <= k < |tasks| ==> !Holds(tasks, k, topic, generation)
  }

  predicate Removes(u: Unregistering, topic: string, generation: nat) {
    u.AwaitRemoval? && u.removal.topic == topic && u.removal.generation == generation
  }

  /** The guard goes to a readiness task: nobody holds it, and no earlier removal waits for it. */
  predicate GuardFree(s: State, k: TaskId)
    requires k < |s.tasks|
  {
    var Task(topic, generation, _) := s.tasks[k];
    && Unheld(s.tasks, topic, generation)
    && forall op :: op in s.unregistering && Removes(s.unregistering[op], topic, generation) ==>
         !s.unregistering[op].removal.acted && k < s.unregistering[op].removal.behind
  }

  /** `_add_response_observer` up to its SUBSCRIBE; `local` says that an application has subscribed to the topic. */
  function StartTask(s: State, k: TaskId, isLocal: bool): State
    requires k < |s.tasks|
  {
    var Task(topic, generation, _) := s.tasks[k];
    var observer := Observer(topic, generation);
    if observer in s.observers then s.(tasks := s.tasks[k := Task(topic, generation, Succeeded)])
    else s.(tasks := s.tasks[k := Task(topic, generation, if isLocal then Succeeded else Subscribing)],
            observers := s.observers + {observer})
  }

  /** SUBACK, or a rejection, a lost connection or a cancellation, after which the observer is taken out again. */
  function EndTask(s: State, k: TaskId, ok: bool): State
    requires k < |s.tasks|
  {
    var Task(topic, generation, _) := s.tasks[k];
    if ok then s.(tasks := s.tasks[k := Task(topic, generation, Succeeded)])
    else s.(tasks := s.tasks[k := Task(topic, generation, Aborted)], observers := s.observers - {Observer(topic, generation)})
  }

  /** `_remove_response_observer` up to its UNSUBSCRIBE. */
  function ActRemoval(s: State, op: OpId): State
    requires op in s.unregistering && s.unregistering[op].AwaitRemoval?
  {
    var r := s.unregistering[op].removal;
    s.(observers := s.observers - {Observer(r.topic, r.generation)},
       unregistering := s.unregistering[op := AwaitRemoval(r.(acted := true))])
  }

  datatype Step =
    | RegisterStep(key: Key)
    | ReturnStep(waiter: WaiterId)                 // registration hands the request to its caller
    | CloseStep(op: OpId, waiter: WaiterId)
    | AbandonStep(op: OpId, waiter: WaiterId)      // registration failed or was cancelled while awaiting readiness
    | ReadyStep(op: OpId, saw: bool)               // the readiness task was seen to succeed; or it failed, or the wait was cancelled
    | RemovalStep(op: OpId)                        // the removal gets the guard
    | RemovedStep(op: OpId)                        // the removal is over: done, failed or cancelled
    | BindStep
    | RestoreStep(interest: InterestId)
    | CancelPendingStep
    | CancelFutureStep(waiter: WaiterId)
    | ClaimStep(message: Message)
    | DeliverStep(claim: ClaimId)
    | StartStep(task: TaskId, isLocal: bool)
    | AckStep(task: TaskId, ok: bool)
    | AbortStep(task: TaskId)                      // cancelled, or the connection found dead, before its SUBSCRIBE

  predicate Enabled(s: State, e: Step) {
    match e
    case RegisterStep(_) => s.free > 0
    case ReturnStep(w) => w < |s.waiters| && !s.waiters[w].returned && Over(s.tasks, s.waiters[w].ready, Succeeded)
    case CloseStep(op, w) => w < |s.waiters| && op !in s.unregistering && s.waiters[w].returned
    case AbandonStep(op, w) => w < |s.waiters| && op !in s.unregistering && !s.waiters[w].returned
    case ReadyStep(op, saw) =>
      op in s.unregistering && s.unregistering[op].AwaitReady? && (saw ==> Over(s.tasks, s.unregistering[op].task, Succeeded))
    case RemovalStep(op) =>
      && op in s.unregistering && s.unregistering[op].AwaitRemoval? && !s.unregistering[op].removal.acted
      && Unheld(s.tasks, s.unregistering[op].removal.topic, s.unregistering[op].removal.generation)
    case RemovedStep(op) => op in s.unregistering && s.unregistering[op].AwaitRemoval?
    case BindStep => true
    case RestoreStep(i) => i < |s.interests| && s.interests[i].refcount > 0 && s.bound
    case CancelPendingStep => true
    case CancelFutureStep(w) => w < |s.waiters|
    case ClaimStep(_) => true
    case DeliverStep(c) => c < |s.claims|
    case StartStep(k, _) => Over(s.tasks, k, Queued) && GuardFree(s, k)
    case AckStep(k, _) => Over(s.tasks, k, Subscribing)
    case AbortStep(k) => Over(s.tasks, k, Queued)
  }

  // What always holds, as facts about the parts of the state each depends on.

  /** No permit is lost or released twice. */
  ghost predicate PermitsKept(capacity: int, free: int, pending: map<Key, WaiterId>, unregistering: map<OpId, Unregistering>) {
    free >= 0 && free + |pending| + |unregistering| == capacity
  }

  /** Waiters are registered under their own keys, on topics somebody is interested in. */
  ghost predicate WaitersKeyed(pending: map<Key, WaiterId>, waiters: seq<Waiter>, topics: map<string, InterestId>) {
    forall k :: k in pending ==> pending[k] < |waiters| && waiters[pending[k]].key == k && k.topic in topics
  }

  /** A topic's reference count is the number of pending keys on it. */
  ghost predicate InterestsCounted(topics: map<string, InterestId>, interests: seq<Interest>, pending: map<Key, WaiterId>) {
    forall t :: t in topics ==>
      topics[t] < |interests| && interests[topics[t]].topic == t && interests[topics[t]].refcount == |KeysOn(pending, t)|
  }

  ghost predicate TasksKnown(unregistering: map<OpId, Unregistering>, interests: nat) {
    forall op :: op in unregistering && unregistering[op].AwaitReady? ==> unregistering[op].interest < interests
  }

  /** The readiness task of a topic on record is of this connection, and its success means that the observer is there. */
  ghost predicate ReadinessKept(topics: map<string, InterestId>, interests: seq<Interest>, tasks: seq<Task>,
                                observers: set<Observer>, generation: nat) {
    forall t: string :: Keeper(topics, interests, t).Some? ==>
      var k := Keeper(topics, interests, t).value;
      && k < |tasks| && tasks[k].topic == t && tasks[k].generation == generation
      && (tasks[k].phase.Succeeded? ==> Observer(t, generation) in observers && Unheld(tasks, t, generation))
  }

  /** One task at a time holds the guard of a filter, and has put its observer in. */
  ghost predicate GuardsKept(tasks: seq<Task>, observers: set<Observer>, generation: nat) {
    && (forall k :: 0 <= k < |tasks| ==> tasks[k].generation <= generation)
    && (forall o :: o in observers ==> o.generation <= generation)
    && (forall j, k :: 0 <= j < |tasks| && Holds(tasks, k, tasks[j].topic, tasks[j].generation) && tasks[j].phase.Subscribing? ==> j == k)
    && (forall k :: 0 <= k < |tasks| && tasks[k].phase.Subscribing? ==> Observer(tasks[k].topic, tasks[k].generation) in observers)
  }

  /** Readiness tasks begun after a removal was asked for wait until it is over, those of topics on record among them. */
  ghost predicate RemovalsKept(topics: map<string, InterestId>, interests: seq<Interest>, tasks: seq<Task>,
                               unregistering: map<OpId, Unregistering>, generation: nat) {
    forall op :: op in unregistering && unregistering[op].AwaitRemoval? ==>
      var r := unregistering[op].removal;
      && r.generation <= generation && r.behind <= |tasks|
      && (forall k :: r.behind <= k < |tasks| && tasks[k].topic == r.topic && tasks[k].generation == r.generation ==>
            tasks[k].phase.Queued? || tasks[k].phase.Aborted?)
      && (r.generation == generation && Keeper(topics, interests, r.topic).Some? ==>
            Keeper(topics, interests, r.topic).value >= r.behind)
  }

  predicate Live(claims: seq<Claim>, delivered: set<ClaimId>, generation: nat, c: int) {
    0 <= c < |claims| && claims[c].generation == generation && c !in delivered
  }

  ghost predicate ClaimsKeyed(claims: seq<Claim>, generation: nat, waiters: seq<Waiter>) {
    forall c :: 0 <= c < |claims| ==>
      && claims[c].waiter < |waiters| && claims[c].generation <= generation
      && KeyOf(claims[c].message) == Some(claims[c].key) && waiters[claims[c].waiter].key == claims[c].key
  }

  /** A registered waiter with an undelivered claim of this connection is marked claimed. */
  ghost predicate ClaimsMarked(claims: seq<Claim>, delivered: set<ClaimId>, generation: nat, waiters: seq<Waiter>,
                               pending: map<Key, WaiterId>) {
    forall c :: Live(claims, delivered, generation, c) && Registered(pending, waiters, claims[c].waiter) ==>
      waiters[claims[c].waiter].claimed
  }

  /** A waiter has at most one undelivered claim of this connection. */
  ghost predicate ClaimsExclusive(claims: seq<Claim>, delivered: set<ClaimId>, generation: nat) {
    forall c, d ::
      Live(claims, delivered, generation, c) && Live(claims, delivered, generation, d) && c != d ==>
        claims[c].waiter != claims[d].waiter
  }

  /** A waiter only ever gets a message with its own topic and correlation data. */
  ghost predicate ResultsMatch(waiters: seq<Waiter>) {
    forall w :: 0 <= w < |waiters| && waiters[w].future.Result? ==> KeyOf(waiters[w].future.message) == Some(waiters[w].key)
  }

  ghost predicate ReadinessSound(s: State) {
    && ReadinessKept(s.topics, s.interests, s.tasks, s.observers, s.generation)
    && GuardsKept(s.tasks, s.observers, s.generation)
    && RemovalsKept(s.topics, s.interests, s.tasks, s.unregistering, s.generation)
  }

  ghost predicate SoundButPermits(s: State) {
    && WaitersKeyed(s.pending, s.waiters, s.topics)
    && InterestsCounted(s.topics, s.interests, s.pending)
    && TasksKnown(s.unregistering, |s.interests|)
    && ReadinessSound(s)
    && ClaimsKeyed(s.claims, s.generation, s.waiters)
    && ClaimsMarked(s.claims, s.delivered, s.generation, s.waiters, s.pending)
    && ClaimsExclusive(s.claims, s.delivered, s.generation)
    && ResultsMatch(s.waiters)
  }

  ghost predicate Sound(s: State) {
    SoundButPermits(s) && PermitsKept(s.capacity, s.free, s.pending, s.unregistering)
  }

  /** The lookups of the step find what they look for. */
  predicate Applicable(s: State, e: Step) {
    Enabled(s, e) &&
    match e
    case RegisterStep(key) => key.topic in s.topics ==> s.topics[key.topic] < |s.interests|
    case CloseStep(_, w) => Registered(s.pending, s.waiters, w) ==> HasTopic(s, w)
    case AbandonStep(_, w) => Registered(s.pending, s.waiters, w) ==> HasTopic(s, w)
    case ReadyStep(op, _) => s.unregistering[op].interest < |s.interests|
    case _ => true
  }

  function Apply(s: State, e: Step): State
    requires Applicable(s, e)
  {
    match e
    case RegisterStep(key) => Register(s, key)
    case ReturnStep(w) => s.(waiters := s.waiters[w := s.waiters[w].(returned := true)])
    case CloseStep(op, w) => Close(s, op, w)
    case AbandonStep(op, w) => Unregister(s, op, w)
    case ReadyStep(op, saw) => ReleaseInterest(s, op, s.unregistering[op].interest, saw)
    case RemovalStep(op) => ActRemoval(s, op)
    case RemovedStep(op) => s.(free := s.free + 1, unregistering := s.unregistering - {op})
    case BindStep => Bind(s)
    case RestoreStep(i) => EnsureReady(s, i)
    case CancelPendingStep => CancelPending(s)
    case CancelFutureStep(w) => Settle(s, w, Cancelled)
    case ClaimStep(m) => MakeClaim(s, m)
    case DeliverStep(c) => Complete(s, c)
    case StartStep(k, isLocal) => StartTask(s, k, isLocal)
    case AckStep(k, ok) => EndTask(s, k, ok)
    case AbortStep(k) => s.(tasks := s.tasks[k := s.tasks[k].(phase := Aborted)])
  }

  // Facts that each step needs.

  lemma KeysAdded(pending: map<Key, WaiterId>, key: Key, w: WaiterId, t: string)
    requires key !in pending
    ensures |KeysOn(pending[key := w], t)| == |KeysOn(pending, t)| + if key.topic == t then 1 else 0
  {
    assert KeysOn(pending[key := w], t) == KeysOn(pending, t) + if key.topic == t then {key} else {};
  }

  lemma KeysRemoved(pending: map<Key, WaiterId>, key: Key, t: string)
    requires key in pending
    ensures |KeysOn(pending - {key}, t)| == |KeysOn(pending, t)| - if key.topic == t then 1 else 0
  {
    assert KeysOn(pending - {key}, t) == KeysOn(pending, t) - {key};
  }

  lemma NoKeys(pending: map<Key, WaiterId>, t: string, waiters: seq<Waiter>, topics: map<string, InterestId>)
    requires WaitersKeyed(pending, waiters, topics) && t !in topics
    ensures KeysOn(pending, t) == {}
  {
  }

  // Readiness.

  /** Fewer topics with a readiness task, and no removal but those under way or one just asked for. */
  lemma FewerKeepers(s: State, z: State)
    requires ReadinessSound(s) && z.tasks == s.tasks && z.observers == s.observers && z.generation == s.generation
    requires forall t: string :: Keeper(z.topics, z.interests, t) == Keeper(s.topics, s.interests, t) ||
                                 Keeper(z.topics, z.interests, t) == None
    requires forall op :: op in z.unregistering && z.unregistering[op].AwaitRemoval? ==>
               (op in s.unregistering && z.unregistering[op] == s.unregistering[op]) || JustAsked(z, z.unregistering[op].removal)
    ensures ReadinessSound(z)
  {
    hide Keeper, Holds, Unheld;
  }

  predicate JustAsked(z: State, r: Removal) {
    r.generation == z.generation && r.behind == |z.tasks| && Keeper(z.topics, z.interests, r.topic) == None
  }

  lemma NewTaskHolds(tasks: seq<Task>, t: string, generation: nat)
    ensures var more := tasks + [Task(t, generation, Queued)];
            && (forall k, u, g :: Holds(more, k, u, g) <==> Holds(tasks, k, u, g))
            && (forall u: string, g: nat :: Unheld(more, u, g) <==> Unheld(tasks, u, g))
  {
    var more := tasks + [Task(t, generation, Queued)];
    forall k, u: string, g: nat
      ensures Holds(more, k, u, g) <==> Holds(tasks, k, u, g)
    {
    }
    forall u: string, g: nat
      ensures Unheld(more, u, g) <==> Unheld(tasks, u, g)
    {
      assert Unheld(more, u, g) ==> forall k :: 0 <= k < |tasks| ==> !Holds(more, k, u, g);
    }
    hide Holds;
  }

  lemma EnsuredKeepers(s: State, i: InterestId)
    requires i < |s.interests| && s.interests[i].ready.None?
    requires forall t :: t in s.topics ==> s.topics[t] < |s.interests| && s.interests[s.topics[t]].topic == t
    ensures var z := EnsureReady(s, i); var topic := s.interests[i].topic;
            forall t: string :: Keeper(z.topics, z.interests, t) == Keeper(s.topics, s.interests, t) ||
              (t == topic && Keeper(z.topics, z.interests, t) == Some(|s.tasks|))
  {
  }

  lemma EnsureReadyReadiness(s: State, i: InterestId)
    requires ReadinessSound(s) && i < |s.interests|
    requires forall t :: t in s.topics ==> s.topics[t] < |s.interests| && s.interests[s.topics[t]].topic == t
    ensures ReadinessSound(EnsureReady(s, i))
  {
    if s.interests[i].ready.None? {
      EnsuredKeepers(s, i);
      NewTaskHolds(s.tasks, s.interests[i].topic, s.generation);
      hide Keeper, Holds, Unheld;
    }
  }

  lemma TopicsKnown(s: State)
    requires InterestsCounted(s.topics, s.interests, s.pending)
    ensures forall t :: t in s.topics ==> s.topics[t] < |s.interests| && s.interests[s.topics[t]].topic == t
  {
    hide KeysOn;
  }

  lemma ReadyAdded(topics: map<string, InterestId>, interests: seq<Interest>, i: InterestId, pending: map<Key, WaiterId>,
                   ready: Option<TaskId>)
    requires InterestsCounted(topics, interests, pending) && i < |interests|
    ensures InterestsCounted(topics, interests[i := interests[i].(ready := ready)], pending)
  {
    hide KeysOn;
  }

  lemma EnsureReadyKeeps(s: State, i: InterestId)
    requires Sound(s) && i < |s.interests|
    ensures Sound(EnsureReady(s, i))
  {
    TopicsKnown(s);
    EnsureReadyReadiness(s, i);
    ReadyAdded(s.topics, s.interests, i, s.pending, Some(|s.tasks|));
    hide PermitsKept, WaitersKeyed, InterestsCounted, TasksKnown, ReadinessKept, GuardsKept, RemovalsKept, ClaimsKeyed,
         ClaimsMarked, ClaimsExclusive, ResultsMatch;
  }

  // `register`.

  lemma EnrolledInterests(s: State, key: Key)
    requires WaitersKeyed(s.pending, s.waiters, s.topics) && InterestsCounted(s.topics, s.interests, s.pending)
    requires key !in s.pending
    ensures var z := Enrolled(s, key);
            && WaitersKeyed(z.pending, z.waiters, z.topics)
            && InterestsCounted(z.topics, z.interests, z.pending)
  {
    var z := Enrolled(s, key);
    forall t | t in z.topics
      ensures z.topics[t] < |z.interests| && z.interests[z.topics[t]].topic == t
      ensures z.interests[z.topics[t]].refcount == |KeysOn(z.pending, t)|
    {
      KeysAdded(s.pending, key, |s.waiters|, t);
      if t !in s.topics {
        NoKeys(s.pending, t, s.waiters, s.topics);
      }
    }
    hide KeysOn, FreshWaiter;
    assert FreshWaiter(s, key).key == key by {
      FreshIs(s, key);
    }
  }

  lemma FreshIs(s: State, key: Key)
    ensures var w := FreshWaiter(s, key); w.key == key && w.future == Pending && !w.claimed && !w.closed
  {
  }

  lemma EnrolledReadiness(s: State, key: Key)
    requires ReadinessSound(s)
    requires forall t :: t in s.topics ==> s.topics[t] < |s.interests| && s.interests[s.topics[t]].topic == t
    ensures ReadinessSound(Enrolled(s, key))
    ensures forall t: string :: Keeper(Enrolled(s, key).topics, Enrolled(s, key).interests, t) == Keeper(s.topics, s.interests, t)
  {
    var z := Enrolled(s, key);
    forall t: string
      ensures Keeper(z.topics, z.interests, t) == Keeper(s.topics, s.interests, t)
    {
    }
    FewerKeepers(s, z);
    hide Keeper, ReadinessSound;
  }

  lemma NewWaiter(s: State, key: Key)
    requires ClaimsKeyed(s.claims, s.generation, s.waiters) && ResultsMatch(s.waiters)
    requires ClaimsMarked(s.claims, s.delivered, s.generation, s.waiters, s.pending)
    ensures var waiters := s.waiters + [FreshWaiter(s, key)];
            && ClaimsKeyed(s.claims, s.generation, waiters) && ResultsMatch(waiters)
            && ClaimsMarked(s.claims, s.delivered, s.generation, waiters, s.pending[key := |s.waiters|])
  {
    FreshIs(s, key);
    hide FreshWaiter;
    var waiters := s.waiters + [FreshWaiter(s, key)];
    forall w: WaiterId | w < |s.waiters|
      ensures Registered(s.pending[key := |s.waiters|], waiters, w) ==> Registered(s.pending, s.waiters, w)
      ensures waiters[w] == s.waiters[w]
    {
    }
    forall c | Live(s.claims, s.delivered, s.generation, c)
      ensures s.claims[c].waiter < |s.waiters|
    {
    }
    hide KeyOf, Registered;
  }

  lemma EnrolledPermits(s: State, key: Key)
    requires PermitsKept(s.capacity, s.free, s.pending, s.unregistering) && s.free > 0 && key !in s.pending
    requires TasksKnown(s.unregistering, |s.interests|) && InterestsCounted(s.topics, s.interests, s.pending)
    ensures var z := Enrolled(s, key);
            PermitsKept(z.capacity, z.free, z.pending, z.unregistering) && TasksKnown(z.unregistering, |z.interests|)
  {
    MoreTasksKnown(s.unregistering, |s.interests|, |s.interests| + 1);
    PendingGrows(s.pending, key, |s.waiters|);
    assert key.topic in s.topics ==> s.topics[key.topic] < |s.interests|;
    hide InterestsCounted, TasksKnown;
  }

  lemma MoreTasksKnown(unregistering: map<OpId, Unregistering>, n: nat, m: nat)
    requires TasksKnown(unregistering, n) && n <= m
    ensures TasksKnown(unregistering, m)
  {
  }

  lemma PendingGrows(pending: map<Key, WaiterId>, key: Key, w: WaiterId)
    requires key !in pending
    ensures |pending[key := w]| == |pending| + 1
  {
    assert pending[key := w].Keys == pending.Keys + {key};
  }

  lemma RegisterKeeps(s: State, key: Key)
    requires Sound(s) && s.free > 0
    ensures key.topic in s.topics ==> s.topics[key.topic] < |s.interests|
    ensures Sound(Register(s, key))
  {
    TopicsKnown(s);
    if key !in s.pending && s.bound {
      EnrolledInterests(s, key);
      EnrolledReadiness(s, key);
      NewWaiter(s, key);
      EnrolledPermits(s, key);
      var z := Enrolled(s, key);
      hide PermitsKept, WaitersKeyed, InterestsCounted, TasksKnown, ReadinessKept, GuardsKept, RemovalsKept,
           ClaimsKeyed, ClaimsMarked, ClaimsExclusive, ResultsMatch;
      EnsureReadyKeeps(z, z.topics[key.topic]);
    }
  }

  // Futures.

  lemma WaiterUpdated(s: State, w: WaiterId, now: Waiter)
    requires SoundButPermits(s) && w < |s.waiters|
    requires now.key == s.waiters[w].key && (s.waiters[w].claimed ==> now.claimed)
    requires now.future.Result? ==> KeyOf(now.future.message) == Some(now.key)
    ensures SoundButPermits(s.(waiters := s.waiters[w := now]))
  {
    hide InterestsCounted, TasksKnown, ReadinessKept, GuardsKept, RemovalsKept, ClaimsExclusive, KeyOf;
  }

  lemma SettleKeeps(s: State, w: WaiterId, outcome: Future)
    requires SoundButPermits(s) && w < |s.waiters|
    requires outcome.Result? ==> KeyOf(outcome.message) == Some(s.waiters[w].key)
    ensures SoundButPermits(Settle(s, w, outcome))
  {
    WaiterUpdated(s, w, s.waiters[w].(future := outcome));
    hide SoundButPermits;
  }

  // `unregister`.

  lemma WithdrawnInterests(s: State, w: WaiterId)
    requires SoundButPermits(s) && HasTopic(s, w) && Registered(s.pending, s.waiters, w)
    ensures InterestsCounted(s.topics, Withdrawn(s, w).interests, Withdrawn(s, w).pending)
  {
    var z := Withdrawn(s, w);
    hide TasksKnown, ReadinessKept, GuardsKept, RemovalsKept, ClaimsKeyed, ClaimsMarked, ClaimsExclusive, ResultsMatch, KeysOn;
    forall t | t in z.topics
      ensures z.topics[t] < |z.interests| && z.interests[z.topics[t]].topic == t
      ensures z.interests[z.topics[t]].refcount == |KeysOn(z.pending, t)|
    {
      KeysRemoved(s.pending, s.waiters[w].key, t);
    }
  }

  lemma WithdrawnReadiness(s: State, w: WaiterId)
    requires ReadinessSound(s) && HasTopic(s, w)
    ensures ReadinessSound(Withdrawn(s, w))
  {
    var z := Withdrawn(s, w);
    forall t: string
      ensures Keeper(z.topics, z.interests, t) == Keeper(s.topics, s.interests, t)
    {
    }
    FewerKeepers(s, z);
    hide Keeper, ReadinessSound;
  }

  lemma WithdrawnWaiters(s: State, w: WaiterId)
    requires SoundButPermits(s) && HasTopic(s, w) && Registered(s.pending, s.waiters, w)
    ensures var z := Withdrawn(s, w);
            && WaitersKeyed(z.pending, z.waiters, z.topics)
            && ClaimsMarked(z.claims, z.delivered, z.generation, z.waiters, z.pending)
            && |z.pending| == |s.pending| - 1
  {
    var z := Withdrawn(s, w);
    assert s.pending.Keys == z.pending.Keys + {s.waiters[w].key};
    hide TasksKnown, InterestsCounted, ReadinessKept, GuardsKept, RemovalsKept, ClaimsKeyed, ClaimsExclusive, ResultsMatch;
  }

  lemma WithdrawnKeeps(s: State, w: WaiterId)
    requires SoundButPermits(s) && HasTopic(s, w) && Registered(s.pending, s.waiters, w)
    ensures SoundButPermits(Withdrawn(s, w)) && |Withdrawn(s, w).pending| == |s.pending| - 1
  {
    WithdrawnInterests(s, w);
    WithdrawnReadiness(s, w);
    WithdrawnWaiters(s, w);
    hide WaitersKeyed, InterestsCounted, TasksKnown, ReadinessKept, GuardsKept, RemovalsKept, ClaimsKeyed,
         ClaimsMarked, ClaimsExclusive, ResultsMatch;
  }

  lemma TopicForgotten(s: State, topic: string)
    requires SoundButPermits(s) && topic in s.topics && s.interests[s.topics[topic]].refcount == 0
    ensures SoundButPermits(s.(topics := s.topics - {topic}))
  {
    var z := s.(topics := s.topics - {topic});
    forall k | k in s.pending
      ensures k.topic != topic
    {
      assert k in KeysOn(s.pending, k.topic);
    }
    forall t: string
      ensures Keeper(z.topics, z.interests, t) == if t == topic then None else Keeper(s.topics, s.interests, t)
    {
    }
    FewerKeepers(s, z);
    hide TasksKnown, ClaimsKeyed, ClaimsMarked, ClaimsExclusive, ResultsMatch, ReadinessKept, GuardsKept, RemovalsKept, KeysOn, Keeper;
  }

  /** Permits and task records do not matter to the rest, as long as the interests on record exist. */
  lemma TasksKeep(s: State, free: int, unregistering: map<OpId, Unregistering>)
    requires SoundButPermits(s) && TasksKnown(unregistering, |s.interests|)
    requires forall op :: op in unregistering && unregistering[op].AwaitRemoval? ==>
               (op in s.unregistering && unregistering[op] == s.unregistering[op]) || JustAsked(s, unregistering[op].removal)
    ensures SoundButPermits(s.(free := free, unregistering := unregistering))
  {
    FewerKeepers(s, s.(free := free, unregistering := unregistering));
    hide WaitersKeyed, InterestsCounted, TasksKnown, ReadinessKept, GuardsKept, RemovalsKept, ClaimsKeyed,
         ClaimsMarked, ClaimsExclusive, ResultsMatch;
  }

  lemma TaskRecords(unregistering: map<OpId, Unregistering>, n: nat, op: OpId, i: InterestId, k: TaskId, removal: Removal)
    requires TasksKnown(unregistering, n)
    ensures TasksKnown(unregistering - {op}, n) && TasksKnown(unregistering[op := AwaitRemoval(removal)], n)
    ensures i < n ==> TasksKnown(unregistering[op := AwaitReady(i, k)], n)
    ensures op in unregistering ==>
              |unregistering - {op}| == |unregistering| - 1 && |unregistering[op := AwaitRemoval(removal)]| == |unregistering|
    ensures op !in unregistering ==> unregistering - {op} == unregistering
    ensures op !in unregistering ==> |unregistering[op := AwaitReady(i, k)]| == |unregistering| + 1
    ensures op !in unregistering ==> |unregistering[op := AwaitRemoval(removal)]| == |unregistering| + 1
  {
    RecordSize(unregistering, op, AwaitRemoval(removal));
    RecordSize(unregistering, op, AwaitReady(i, k));
  }

  lemma RecordSize(unregistering: map<OpId, Unregistering>, op: OpId, u: Unregistering)
    ensures op in unregistering ==> |unregistering - {op}| == |unregistering| - 1 && |unregistering[op := u]| == |unregistering|
    ensures op !in unregistering ==> unregistering - {op} == unregistering && |unregistering[op := u]| == |unregistering| + 1
  {
    assert (unregistering - {op}).Keys == unregistering.Keys - {op};
    assert unregistering[op := u].Keys == unregistering.Keys + {op};
  }

  lemma ReleaseKeeps(s: State, op: OpId, i: InterestId, active: bool)
    requires SoundButPermits(s) && i < |s.interests|
    ensures SoundButPermits(ReleaseInterest(s, op, i, active))
  {
    var topic := s.interests[i].topic;
    var removal := Removal(topic, s.generation, |s.tasks|, false);
    TaskRecords(s.unregistering, |s.interests|, op, i, 0, removal);
    if s.interests[i].refcount == 0 && topic in s.topics && s.topics[topic] == i {
      TopicForgotten(s, topic);
      var forgotten := s.(topics := s.topics - {topic});
      assert JustAsked(forgotten, removal);
      hide SoundButPermits, TasksKnown, JustAsked;
      TasksKeep(forgotten, s.free + 1, s.unregistering - {op});
      TasksKeep(forgotten, s.free, s.unregistering[op := AwaitRemoval(removal)]);
    } else {
      hide SoundButPermits, TasksKnown, JustAsked;
      TasksKeep(s, s.free + 1, s.unregistering - {op});
    }
  }

  /** The waiter settled and withdrawn: all is well but one permit is on no record. */
  lemma RemovedWaiter(s: State, w: WaiterId)
    requires Sound(s) && Registered(s.pending, s.waiters, w)
    ensures HasTopic(s, w) && HasTopic(Settle(s, w, Cancelled), w)
    ensures var z := Withdrawn(Settle(s, w, Cancelled), w);
            && SoundButPermits(z) && z.unregistering == s.unregistering && z.free == s.free && z.capacity == s.capacity
            && |z.interests| == |s.interests| && z.free >= 0 && z.free + |z.pending| + |z.unregistering| == z.capacity - 1
            && TasksKnown(z.unregistering, |z.interests|)
  {
    SettleKeeps(s, w, Cancelled);
    HasTopicIfRegistered(s, w);
    SettleFrame(s, w, Cancelled);
    hide *;
    var settled := Settle(s, w, Cancelled);
    WithdrawnKeeps(settled, w);
    WithdrawnFrame(settled, w);
    PermitsAre(s);
  }

  lemma PermitsAre(s: State)
    requires Sound(s)
    ensures s.free >= 0 && s.free + |s.pending| + |s.unregistering| == s.capacity && TasksKnown(s.unregistering, |s.interests|)
  {
    hide WaitersKeyed, InterestsCounted, ReadinessKept, GuardsKept, RemovalsKept, ClaimsKeyed, ClaimsMarked,
         ClaimsExclusive, ResultsMatch, TasksKnown;
  }

  lemma HasTopicIfRegistered(s: State, w: WaiterId)
    requires SoundButPermits(s) && Registered(s.pending, s.waiters, w)
    ensures HasTopic(s, w)
  {
    hide TasksKnown, ReadinessKept, GuardsKept, RemovalsKept, ClaimsKeyed, ClaimsMarked, ClaimsExclusive, ResultsMatch, KeysOn;
  }

  lemma SettleFrame(s: State, w: WaiterId, outcome: Future)
    requires w < |s.waiters|
    ensures var z := Settle(s, w, outcome);
            && z == s.(waiters := z.waiters) && Registered(z.pending, z.waiters, w) == Registered(s.pending, s.waiters, w)
            && HasTopic(z, w) == HasTopic(s, w)
  {
  }

  lemma WithdrawnFrame(s: State, w: WaiterId)
    requires HasTopic(s, w)
    ensures var z := Withdrawn(s, w); z == s.(pending := z.pending, interests := z.interests) && |z.interests| == |s.interests|
  {
  }

  lemma UnregisterKeeps(s: State, op: OpId, w: WaiterId)
    requires Sound(s) && w < |s.waiters| && op !in s.unregistering
    ensures Registered(s.pending, s.waiters, w) ==> HasTopic(s, w)
    ensures Sound(Unregister(s, op, w))
  {
    hide SoundButPermits, TasksKnown, Registered, Settle, Withdrawn, KeysOn, Suspend;
    if Registered(s.pending, s.waiters, w) {
      RemovedWaiter(s, w);
      SuspendKeeps(Withdrawn(Settle(s, w, Cancelled), w), op, s.topics[s.waiters[w].key.topic]);
    }
  }

  /** One permit is on no record, and ends up free or with the unregistration. */
  lemma SuspendKeeps(z: State, op: OpId, i: InterestId)
    requires SoundButPermits(z) && i < |z.interests| && op !in z.unregistering && TasksKnown(z.unregistering, |z.interests|)
    requires z.free >= 0 && z.free + |z.pending| + |z.unregistering| == z.capacity - 1
    ensures Sound(Suspend(z, op, i))
  {
    var k := if z.interests[i].ready.Some? then z.interests[i].ready.value else 0;
    hide *;
    SuspendIs(z, op, i, k);
    if Suspend(z, op, i) == ReleaseInterest(z, op, i, false) {
      ReleasedSound(z, op, i, false);
    } else if Suspend(z, op, i) == ReleaseInterest(z, op, i, true) {
      ReleasedSound(z, op, i, true);
    } else {
      WaitSound(z, op, i, k);
    }
  }

  lemma ReleasedSound(z: State, op: OpId, i: InterestId, active: bool)
    requires SoundButPermits(z) && i < |z.interests| && op !in z.unregistering
    requires z.free >= 0 && z.free + |z.pending| + |z.unregistering| == z.capacity - 1
    ensures Sound(ReleaseInterest(z, op, i, active))
  {
    ReleaseKeeps(z, op, i, active);
    ReleasePermits(z, op, i, active);
    hide SoundButPermits, ReleaseInterest;
  }

  lemma WaitSound(z: State, op: OpId, i: InterestId, k: TaskId)
    requires SoundButPermits(z) && i < |z.interests| && op !in z.unregistering && TasksKnown(z.unregistering, |z.interests|)
    requires z.free >= 0 && z.free + |z.pending| + |z.unregistering| == z.capacity - 1
    ensures Sound(z.(free := z.free + 1)) && Sound(z.(unregistering := z.unregistering[op := AwaitReady(i, k)]))
  {
    hide *;
    var now := z.unregistering[op := AwaitReady(i, k)];
    TaskRecords(z.unregistering, |z.interests|, op, i, k, Removal("", 0, 0, false));
    TasksKeep(z, z.free + 1, z.unregistering);
    TasksKeep(z, z.free, now);
    SoundFrom(z.(free := z.free + 1));
    assert z.(free := z.free, unregistering := now) == z.(unregistering := now);
    SoundFrom(z.(unregistering := now));
  }

  lemma SoundFrom(z: State)
    requires SoundButPermits(z) && z.free >= 0 && z.free + |z.pending| + |z.unregistering| == z.capacity
    ensures Sound(z)
  {
    hide SoundButPermits;
  }

  lemma SuspendIs(z: State, op: OpId, i: InterestId, k: TaskId)
    requires i < |z.interests| && (z.interests[i].ready.Some? ==> z.interests[i].ready.value == k)
    ensures || (z.interests[i].refcount > 0 && Suspend(z, op, i) == z.(free := z.free + 1))
            || Suspend(z, op, i) == ReleaseInterest(z, op, i, false)
            || Suspend(z, op, i) == ReleaseInterest(z, op, i, true)
            || Suspend(z, op, i) == z.(unregistering := z.unregistering[op := AwaitReady(i, k)])
  {
    hide ReleaseInterest;
  }

  lemma ReleasePermits(z: State, op: OpId, i: InterestId, active: bool)
    requires i < |z.interests| && op !in z.unregistering && z.free >= 0
    requires z.free + |z.pending| + |z.unregistering| == z.capacity - 1
    ensures var y := ReleaseInterest(z, op, i, active); PermitsKept(y.capacity, y.free, y.pending, y.unregistering)
  {
    var y := ReleaseInterest(z, op, i, active);
    var removal := AwaitRemoval(Removal(z.interests[i].topic, z.generation, |z.tasks|, false));
    assert (y.free == z.free + 1 && y.unregistering == z.unregistering - {op}) ||
           (y.free == z.free && y.unregistering == z.unregistering[op := removal]);
    hide ReleaseInterest;
    OneMore(z.unregistering, op, y.unregistering);
  }

  lemma OneMore(unregistering: map<OpId, Unregistering>, op: OpId, now: map<OpId, Unregistering>)
    requires op !in unregistering
    requires now == unregistering - {op} || (op in now && now == unregistering[op := now[op]])
    ensures op in now ==> |now| == |unregistering| + 1
    ensures op !in now ==> |now| == |unregistering|
  {
    assert op !in now ==> now == unregistering;
    assert op in now ==> now.Keys == unregistering.Keys + {op};
  }

  lemma CloseKeeps(s: State, op: OpId, w: WaiterId)
    requires Sound(s) && w < |s.waiters| && op !in s.unregistering
    ensures Registered(s.pending, s.waiters, w) ==> HasTopic(s, w)
    ensures Sound(Close(s, op, w))
  {
    WaiterUpdated(s, w, s.waiters[w].(closed := true));
    hide SoundButPermits;
    UnregisterKeeps(s, op, w);
    if !s.waiters[w].closed {
      UnregisterKeeps(s.(waiters := s.waiters[w := s.waiters[w].(closed := true)]), op, w);
    }
  }

  lemma ReadyKeeps(s: State, op: OpId, ok: bool)
    requires Sound(s) && op in s.unregistering && s.unregistering[op].AwaitReady?
    ensures s.unregistering[op].interest < |s.interests|
    ensures Sound(ReleaseInterest(s, op, s.unregistering[op].interest, ok))
  {
    hide InterestsCounted, ReadinessKept, GuardsKept, RemovalsKept, ClaimsKeyed, ClaimsMarked, ClaimsExclusive, ResultsMatch, WaitersKeyed;
    var i := s.unregistering[op].interest;
    TaskRecords(s.unregistering, |s.interests|, op, i, 0, Removal(s.interests[i].topic, s.generation, |s.tasks|, false));
    ReleaseKeeps(s, op, i, ok);
    hide SoundButPermits;
  }

  lemma RemovedKeeps(s: State, op: OpId)
    requires Sound(s) && op in s.unregistering
    ensures Sound(s.(free := s.free + 1, unregistering := s.unregistering - {op}))
  {
    TaskRecords(s.unregistering, |s.interests|, op, 0, 0, Removal("", 0, 0, false));
    TasksKeep(s, s.free + 1, s.unregistering - {op});
    hide SoundButPermits, TasksKnown;
  }

  // Steps of the connection.

  ghost predicate SameRest(s: State, z: State) {
    && z.capacity == s.capacity && z.free == s.free && z.pending == s.pending && z.topics == s.topics && z.waiters == s.waiters
    && z.interests == s.interests && z.generation == s.generation && z.claims == s.claims && z.delivered == s.delivered
    && z.unregistering.Keys == s.unregistering.Keys
    && forall op :: op in s.unregistering ==>
         z.unregistering[op] == s.unregistering[op] || (z.unregistering[op].AwaitRemoval? && s.unregistering[op].AwaitRemoval?)
  }

  lemma ConnectionKeeps(s: State, z: State)
    requires Sound(s) && SameRest(s, z) && ReadinessSound(z)
    ensures Sound(z)
  {
    assert |z.unregistering| == |z.unregistering.Keys| && |s.unregistering| == |s.unregistering.Keys|;
    hide WaitersKeyed, InterestsCounted, ReadinessKept, GuardsKept, RemovalsKept, ClaimsKeyed, ClaimsMarked, ClaimsExclusive, ResultsMatch;
  }

  /** A task moved on changes nobody's hold but its own. */
  lemma MovedHolds(tasks: seq<Task>, k: TaskId, phase: Phase)
    requires k < |tasks|
    ensures var now := tasks[k := tasks[k].(phase := phase)];
            && (forall j, t, g :: j != k ==> (Holds(now, j, t, g) <==> Holds(tasks, j, t, g)))
            && (forall t, g :: Holds(now, k, t, g) <==> phase.Subscribing? && t == tasks[k].topic && g == tasks[k].generation)
            && (forall t: string, g: nat :: Unheld(tasks, t, g) && (phase.Subscribing? ==> t != tasks[k].topic || g != tasks[k].generation) ==>
                  Unheld(now, t, g))
            && (!phase.Subscribing? && (forall j :: 0 <= j < |tasks| && j != k ==> !Holds(tasks, j, tasks[k].topic, tasks[k].generation)) ==>
                  Unheld(now, tasks[k].topic, tasks[k].generation))
  {
  }

  lemma UnheldBack(tasks: seq<Task>, now: seq<Task>, k: TaskId)
    requires k < |tasks| && |now| == |tasks| && now == tasks[k := tasks[k].(phase := now[k].phase)]
    ensures forall t: string, g: nat :: (t != tasks[k].topic || g != tasks[k].generation) ==> Unheld(now, t, g) == Unheld(tasks, t, g)
    ensures !tasks[k].phase.Subscribing? && !now[k].phase.Subscribing? ==>
              Unheld(now, tasks[k].topic, tasks[k].generation) == Unheld(tasks, tasks[k].topic, tasks[k].generation)
  {
    MovedHolds(tasks, k, now[k].phase);
    MovedHolds(now, k, tasks[k].phase);
    assert now[k := now[k].(phase := tasks[k].phase)] == tasks;
    forall t: string, g: nat
      ensures (t != tasks[k].topic || g != tasks[k].generation) || (!tasks[k].phase.Subscribing? && !now[k].phase.Subscribing?) ==>
                Unheld(now, t, g) == Unheld(tasks, t, g)
    {
    }
    hide Unheld, Holds;
  }

  /** Where the observer is in place already, or an application subscribes, nobody holds the guard afterwards. */
  lemma StartedHolds(s: State, k: TaskId, isLocal: bool)
    requires Over(s.tasks, k, Queued) && GuardFree(s, k)
    ensures var z := StartTask(s, k, isLocal); var Task(topic, generation, _) := s.tasks[k];
            && |z.tasks| == |s.tasks| && z.tasks[k] == Task(topic, generation, z.tasks[k].phase)
            && (forall j :: 0 <= j < |s.tasks| && j != k ==> z.tasks[j] == s.tasks[j])
            && (z.tasks[k].phase.Subscribing? || z.tasks[k].phase.Succeeded?)
            && z.observers == s.observers + {Observer(topic, generation)} && Unheld(s.tasks, topic, generation)
            && (z.tasks[k].phase.Subscribing? ==> Observer(topic, generation) !in s.observers)
            && (z.tasks[k].phase.Succeeded? ==> Unheld(z.tasks, topic, generation))
            && (forall t: string, g: nat :: t != topic || g != generation ==> Unheld(z.tasks, t, g) == Unheld(s.tasks, t, g))
            && (forall j, t: string, g: nat :: j != k ==> (Holds(z.tasks, j, t, g) <==> Holds(s.tasks, j, t, g)))
  {
    var z := StartTask(s, k, isLocal);
    MovedHolds(s.tasks, k, z.tasks[k].phase);
    UnheldBack(s.tasks, z.tasks, k);
    hide Unheld, Holds;
  }

  lemma StartKept(s: State, k: TaskId, isLocal: bool)
    requires ReadinessKept(s.topics, s.interests, s.tasks, s.observers, s.generation)
    requires Over(s.tasks, k, Queued) && GuardFree(s, k)
    ensures var z := StartTask(s, k, isLocal); ReadinessKept(z.topics, z.interests, z.tasks, z.observers, z.generation)
  {
    var z := StartTask(s, k, isLocal);
    StartedHolds(s, k, isLocal);
    assert z == s.(tasks := z.tasks, observers := z.observers);
    hide Unheld, Holds, GuardFree, StartTask, Keeper;
  }

  lemma StartGuards(s: State, k: TaskId, isLocal: bool)
    requires GuardsKept(s.tasks, s.observers, s.generation) && Over(s.tasks, k, Queued) && GuardFree(s, k)
    ensures var z := StartTask(s, k, isLocal); GuardsKept(z.tasks, z.observers, z.generation)
  {
    var z := StartTask(s, k, isLocal);
    var Task(topic, generation, _) := s.tasks[k];
    StartedHolds(s, k, isLocal);
    assert z == s.(tasks := z.tasks, observers := z.observers);
    forall j, i | 0 <= j < |z.tasks| && Holds(z.tasks, i, z.tasks[j].topic, z.tasks[j].generation) && z.tasks[j].phase.Subscribing?
      ensures j == i
    {
      assert j != k ==> s.tasks[j] == z.tasks[j];
      assert !Holds(s.tasks, i, topic, generation);
      assert 0 <= j < |s.tasks| && s.tasks[j] == Task(topic, generation, Subscribing) ==> Holds(s.tasks, j, topic, generation);
    }
    hide GuardFree, StartTask, Holds, Unheld;
  }

  lemma StartRemovals(s: State, k: TaskId, isLocal: bool)
    requires RemovalsKept(s.topics, s.interests, s.tasks, s.unregistering, s.generation) && Over(s.tasks, k, Queued) && GuardFree(s, k)
    ensures var z := StartTask(s, k, isLocal); RemovalsKept(z.topics, z.interests, z.tasks, z.unregistering, z.generation)
  {
    hide Unheld, Keeper;
  }

  lemma StartReadiness(s: State, k: TaskId, isLocal: bool)
    requires ReadinessSound(s) && Over(s.tasks, k, Queued) && GuardFree(s, k)
    ensures ReadinessSound(StartTask(s, k, isLocal))
  {
    StartKept(s, k, isLocal);
    StartGuards(s, k, isLocal);
    StartRemovals(s, k, isLocal);
    hide ReadinessKept, GuardsKept, RemovalsKept, GuardFree, StartTask;
  }

  lemma EndReadiness(s: State, k: TaskId, ok: bool)
    requires ReadinessSound(s) && Over(s.tasks, k, Subscribing)
    ensures ReadinessSound(EndTask(s, k, ok))
  {
    var z := EndTask(s, k, ok);
    MovedHolds(s.tasks, k, z.tasks[k].phase);
    assert Holds(s.tasks, k, s.tasks[k].topic, s.tasks[k].generation);
    assert !Unheld(s.tasks, s.tasks[k].topic, s.tasks[k].generation);
    hide Keeper, Unheld, Holds;
  }

  lemma AbortReadiness(s: State, k: TaskId)
    requires ReadinessSound(s) && Over(s.tasks, k, Queued)
    ensures ReadinessSound(s.(tasks := s.tasks[k := s.tasks[k].(phase := Aborted)]))
  {
    MovedHolds(s.tasks, k, Aborted);
    hide Keeper, Unheld, Holds;
  }

  lemma ActReadiness(s: State, op: OpId)
    requires ReadinessSound(s) && Enabled(s, RemovalStep(op))
    ensures ReadinessSound(ActRemoval(s, op))
  {
    var r := s.unregistering[op].removal;
    forall k | 0 <= k < |s.tasks| && s.tasks[k].phase.Subscribing?
      ensures s.tasks[k].topic != r.topic || s.tasks[k].generation != r.generation
    {
      assert !Holds(s.tasks, k, r.topic, r.generation);
    }
    hide Keeper, Unheld, Holds;
  }

  // Connections.

  /** On a connection that has just begun there is no readiness task, and no observer. */
  lemma NewConnectionReadiness(s: State, z: State)
    requires ReadinessSound(s) && z.tasks == s.tasks && z.observers == s.observers && z.generation == s.generation + 1
    requires z.unregistering == s.unregistering && forall t: string :: Keeper(z.topics, z.interests, t) == None
    ensures ReadinessSound(z)
  {
    hide Keeper, Holds, Unheld;
  }

  lemma BindReadiness(s: State)
    requires ReadinessSound(s)
    requires forall t :: t in s.topics ==> s.topics[t] < |s.interests| && s.interests[s.topics[t]].topic == t
    ensures ReadinessSound(Bind(s))
  {
    var z := Bind(s);
    assert forall t: string :: Keeper(z.topics, z.interests, t) == None;
    hide Keeper, Unready, Unclaimed, ReadinessSound;
    NewConnectionReadiness(s, z);
  }

  lemma BindInterests(s: State)
    requires WaitersKeyed(s.pending, s.waiters, s.topics) && InterestsCounted(s.topics, s.interests, s.pending)
    ensures var z := Bind(s);
            && WaitersKeyed(z.pending, z.waiters, z.topics) && InterestsCounted(z.topics, z.interests, z.pending)
            && |z.interests| == |s.interests|
  {
    var z := Bind(s);
    assert forall t :: t in s.topics && s.topics[t] < |s.interests| && s.interests[s.topics[t]].topic == t ==>
      z.interests[s.topics[t]] == s.interests[s.topics[t]].(ready := None);
    assert forall w :: 0 <= w < |s.waiters| ==> z.waiters[w].key == s.waiters[w].key;
    hide KeysOn, Registered, OnTopic;
  }

  lemma BindClaims(s: State)
    requires ClaimsKeyed(s.claims, s.generation, s.waiters) && ResultsMatch(s.waiters)
    ensures var z := Bind(s);
            && ClaimsKeyed(z.claims, z.generation, z.waiters) && ResultsMatch(z.waiters)
            && ClaimsMarked(z.claims, z.delivered, z.generation, z.waiters, z.pending)
            && ClaimsExclusive(z.claims, z.delivered, z.generation)
  {
    var z := Bind(s);
    assert forall w :: 0 <= w < |s.waiters| ==> z.waiters[w].key == s.waiters[w].key && z.waiters[w].future == s.waiters[w].future;
    assert forall c :: !Live(z.claims, z.delivered, z.generation, c);
    hide Registered, KeyOf;
  }

  lemma BindKeeps(s: State)
    requires Sound(s)
    ensures Sound(Bind(s))
  {
    TopicsKnown(s);
    BindReadiness(s);
    BindInterests(s);
    BindClaims(s);
    hide WaitersKeyed, InterestsCounted, TasksKnown, ReadinessSound, ClaimsKeyed, ClaimsMarked, ClaimsExclusive, ResultsMatch, PermitsKept,
         Unclaimed, Unready;
  }

  lemma CancelPendingKeeps(s: State)
    requires Sound(s)
    ensures Sound(CancelPending(s))
  {
    var z := CancelPending(s);
    NewConnectionReadiness(s, z);
    hide KeysOn, KeyOf, ReadinessSound;
    assert forall w :: 0 <= w < |s.waiters| ==> z.waiters[w].key == s.waiters[w].key;
    assert forall c :: !Live(z.claims, z.delivered, z.generation, c);
    hide Registered;
  }

  // Claims.

  /** A claim on an open waiter is the only live one on it. */
  lemma ClaimAdded(claims: seq<Claim>, delivered: set<ClaimId>, generation: nat, waiters: seq<Waiter>,
                   pending: map<Key, WaiterId>, claim: Claim)
    requires ClaimsKeyed(claims, generation, waiters) && ClaimsMarked(claims, delivered, generation, waiters, pending)
    requires ClaimsExclusive(claims, delivered, generation)
    requires Registered(pending, waiters, claim.waiter) && !waiters[claim.waiter].claimed
    requires claim.generation == generation && claim.key == waiters[claim.waiter].key && KeyOf(claim.message) == Some(claim.key)
    ensures var marked := waiters[claim.waiter := waiters[claim.waiter].(claimed := true)];
            && ClaimsKeyed(claims + [claim], generation, marked)
            && ClaimsMarked(claims + [claim], delivered, generation, marked, pending)
            && ClaimsExclusive(claims + [claim], delivered, generation)
  {
    var w := claim.waiter;
    var more := claims + [claim];
    forall d: int
      ensures d != |claims| ==> (Live(more, delivered, generation, d) <==> Live(claims, delivered, generation, d))
      ensures 0 <= d < |claims| ==> more[d] == claims[d]
      ensures Live(claims, delivered, generation, d) ==> claims[d].waiter != w
    {
    }
    hide KeyOf;
  }

  lemma ClaimKeeps(s: State, m: Message)
    requires Sound(s)
    ensures Sound(MakeClaim(s, m))
  {
    hide InterestsCounted, TasksKnown, ReadinessKept, GuardsKept, RemovalsKept, ClaimsKeyed, ClaimsMarked, ClaimsExclusive, PermitsKept;
    if Claimable(s, m) {
      var w := s.pending[KeyOf(m).value];
      assert Registered(s.pending, s.waiters, w);
      ClaimAdded(s.claims, s.delivered, s.generation, s.waiters, s.pending, Claim(w, KeyOf(m).value, m, s.generation));
      hide KeyOf, Registered;
    }
  }

  lemma CompleteKeeps(s: State, c: ClaimId)
    requires Sound(s) && c < |s.claims|
    ensures Sound(Complete(s, c))
  {
    var told := s.(delivered := s.delivered + {c});
    assert forall d :: Live(told.claims, told.delivered, told.generation, d) ==> Live(s.claims, s.delivered, s.generation, d);
    assert SoundButPermits(told) by {
      hide InterestsCounted, TasksKnown, ReadinessKept, GuardsKept, RemovalsKept, ResultsMatch, KeyOf, Registered, WaitersKeyed, Live;
    }
    var claim := s.claims[c];
    SettleKeeps(told, claim.waiter, Result(claim.message));
    hide SoundButPermits;
  }

  lemma CancelKeeps(s: State, w: WaiterId)
    requires Sound(s) && w < |s.waiters|
    ensures Sound(Settle(s, w, Cancelled))
  {
    SettleKeeps(s, w, Cancelled);
    hide SoundButPermits;
  }

  lemma ReturnKeeps(s: State, w: WaiterId)
    requires Sound(s) && w < |s.waiters|
    ensures Sound(s.(waiters := s.waiters[w := s.waiters[w].(returned := true)]))
  {
    ResultOf(s, w);
    WaiterUpdated(s, w, s.waiters[w].(returned := true));
    hide SoundButPermits;
  }

  lemma ResultOf(s: State, w: WaiterId)
    requires Sound(s) && w < |s.waiters|
    ensures s.waiters[w].future.Result? ==> KeyOf(s.waiters[w].future.message) == Some(s.waiters[w].key)
  {
    hide WaitersKeyed, InterestsCounted, TasksKnown, ReadinessKept, GuardsKept, RemovalsKept, ClaimsKeyed,
         ClaimsMarked, ClaimsExclusive, KeyOf;
  }

  lemma ActKeeps(s: State, op: OpId)
    requires Sound(s) && Enabled(s, RemovalStep(op))
    ensures Sound(ActRemoval(s, op))
  {
    ReadinessIs(s);
    ActReadiness(s, op);
    assert SameRest(s, ActRemoval(s, op));
    hide Sound, SameRest, ReadinessSound, ActRemoval, Enabled;
    ConnectionKeeps(s, ActRemoval(s, op));
  }

  lemma ReadinessIs(s: State)
    requires Sound(s)
    ensures ReadinessSound(s)
  {
    hide WaitersKeyed, InterestsCounted, TasksKnown, ReadinessKept, GuardsKept, RemovalsKept, ClaimsKeyed,
         ClaimsMarked, ClaimsExclusive, ResultsMatch;
  }

  lemma StartKeeps(s: State, k: TaskId, isLocal: bool)
    requires Sound(s) && Over(s.tasks, k, Queued) && GuardFree(s, k)
    ensures Sound(StartTask(s, k, isLocal))
  {
    assert SameRest(s, StartTask(s, k, isLocal));
    hide *;
    ReadinessIs(s);
    StartReadiness(s, k, isLocal);
    ConnectionKeeps(s, StartTask(s, k, isLocal));
  }

  lemma EndKeeps(s: State, k: TaskId, ok: bool)
    requires Sound(s) && Over(s.tasks, k, Subscribing)
    ensures Sound(EndTask(s, k, ok))
  {
    assert SameRest(s, EndTask(s, k, ok));
    hide *;
    ReadinessIs(s);
    EndReadiness(s, k, ok);
    ConnectionKeeps(s, EndTask(s, k, ok));
  }

  lemma AbortKeeps(s: State, k: TaskId)
    requires Sound(s) && Over(s.tasks, k, Queued)
    ensures Sound(s.(tasks := s.tasks[k := s.tasks[k].(phase := Aborted)]))
  {
    var z := s.(tasks := s.tasks[k := s.tasks[k].(phase := Aborted)]);
    assert SameRest(s, z);
    hide *;
    ReadinessIs(s);
    AbortReadiness(s, k);
    ConnectionKeeps(s, z);
  }

  lemma StepKeeps(s: State, e: Step)
    requires Sound(s) && Enabled(s, e)
    ensures Applicable(s, e) && Sound(Apply(s, e))
  {
    hide Sound, GuardFree, Unheld, StartTask, EndTask, ActRemoval, Register, Close, Unregister, ReleaseInterest, EnsureReady, Bind,
         CancelPending, MakeClaim, Complete;
    match e
    case RegisterStep(key) => RegisterKeeps(s, key);
    case ReturnStep(w) => ReturnKeeps(s, w);
    case CloseStep(op, w) => CloseKeeps(s, op, w);
    case AbandonStep(op, w) => UnregisterKeeps(s, op, w);
    case ReadyStep(op, ok) => ReadyKeeps(s, op, ok);
    case RemovalStep(op) => ActKeeps(s, op);
    case RemovedStep(op) => RemovedKeeps(s, op);
    case BindStep => BindKeeps(s);
    case RestoreStep(i) => EnsureReadyKeeps(s, i);
    case CancelPendingStep => CancelPendingKeeps(s);
    case CancelFutureStep(w) => CancelKeeps(s, w);
    case ClaimStep(m) => ClaimKeeps(s, m);
    case DeliverStep(c) => CompleteKeeps(s, c);
    case StartStep(k, isLocal) => StartKeeps(s, k, isLocal);
    case AckStep(k, ok) => EndKeeps(s, k, ok);
    case AbortStep(k) => AbortKeeps(s, k);
  }

  // Whole runs.

  function Initial(max: nat): State
    requires max > 0
  {
    State(max, max, map[], map[], [], [], false, 0, map[], [], {}, [], {})
  }

  ghost predicate Runs(s: State, steps: seq<Step>, end: State)
    decreases |steps|
  {
    if steps == [] then s == end else Applicable(s, steps[0]) && Runs(Apply(s, steps[0]), steps[1..], end)
  }

  lemma {:induction false} RunsKeepSound(s: State, steps: seq<Step>, end: State)
    requires Sound(s) && Runs(s, steps, end)
    ensures Sound(end) && end.capacity == s.capacity
    decreases |steps|
  {
    hide Sound, Apply, Enabled;
    if steps != [] {
      ApplicableIsEnabled(s, steps[0]);
      StepKeeps(s, steps[0]);
      RecordsFixed(s, steps[0]);
      RunsKeepSound(Apply(s, steps[0]), steps[1..], end);
    }
  }

  lemma ApplicableIsEnabled(s: State, e: Step)
    requires Applicable(s, e)
    ensures Enabled(s, e)
  {
  }

  lemma ReleaseFrame(s: State, op: OpId, i: InterestId, active: bool)
    requires i < |s.interests|
    ensures var z := ReleaseInterest(s, op, i, active);
            z.capacity == s.capacity && z.waiters == s.waiters && z.pending == s.pending && z.claims == s.claims
  {
  }

  lemma ReadyFrame(s: State, i: InterestId)
    requires i < |s.interests|
    ensures EnsureReady(s, i).capacity == s.capacity && EnsureReady(s, i).waiters == s.waiters && EnsureReady(s, i).claims == s.claims
  {
  }

  lemma RegisterFrame(s: State, key: Key)
    requires key.topic in s.topics ==> s.topics[key.topic] < |s.interests|
    ensures Register(s, key).capacity == s.capacity && Register(s, key).claims == s.claims
    ensures Register(s, key).waiters == s.waiters || Register(s, key).waiters == s.waiters + [FreshWaiter(s, key)]
    ensures FreshWaiter(s, key).future.Pending?
  {
    FreshIs(s, key);
    hide FreshWaiter;
  }

  lemma UnregisterFrame(s: State, op: OpId, w: WaiterId)
    requires w < |s.waiters|
    requires Registered(s.pending, s.waiters, w) ==> HasTopic(s, w)
    ensures Unregister(s, op, w).capacity == s.capacity && Unregister(s, op, w).claims == s.claims
    ensures Unregister(s, op, w).waiters == s.waiters || Unregister(s, op, w).waiters == Settle(s, w, Cancelled).waiters
  {
    SettleFrame(s, w, Cancelled);
    hide Registered;
    if Registered(s.pending, s.waiters, w) {
      var removed := Withdrawn(Settle(s, w, Cancelled), w);
      var i := s.topics[s.waiters[w].key.topic];
      ReleaseFrame(removed, op, i, false);
      ReleaseFrame(removed, op, i, true);
      hide ReleaseInterest;
    }
  }

  lemma RecordsFixed(s: State, e: Step)
    requires Applicable(s, e)
    ensures Apply(s, e).capacity == s.capacity && (!e.ClaimStep? ==> Apply(s, e).claims == s.claims)
  {
    hide Registered, KeyOf, Claimable, EnsureReady, ReleaseInterest, Register, Unregister, HasTopic, GuardFree, Unheld;
    match e
    case RegisterStep(key) => RegisterFrame(s, key);
    case CloseStep(op, w) => CloseFrame(s, op, w);
    case AbandonStep(op, w) => UnregisterFrame(s, op, w);
    case ReadyStep(op, ok) => ReleaseFrame(s, op, s.unregistering[op].interest, ok);
    case RestoreStep(i) => ReadyFrame(s, i);
    case _ =>
  }

  lemma CloseFrame(s: State, op: OpId, w: WaiterId)
    requires w < |s.waiters|
    requires Registered(s.pending, s.waiters, w) ==> HasTopic(s, w)
    ensures Close(s, op, w).capacity == s.capacity && Close(s, op, w).claims == s.claims
    ensures |Close(s, op, w).waiters| == |s.waiters|
    ensures forall v :: 0 <= v < |s.waiters| ==>
              Close(s, op, w).waiters[v].future == s.waiters[v].future ||
              (s.waiters[v].future.Pending? && Close(s, op, w).waiters[v].future == Cancelled)
  {
    if !s.waiters[w].closed {
      var z := s.(waiters := s.waiters[w := s.waiters[w].(closed := true)]);
      UnregisterFrame(z, op, w);
      hide Unregister;
    }
  }

  /** Over every interleaving: permits are conserved and every topic's reference count is right. */
  lemma PermitsAndRefcounts(max: nat, steps: seq<Step>, end: State)
    requires max > 0 && Runs(Initial(max), steps, end)
    ensures end.free >= 0 && end.free + |end.pending| + |end.unregistering| == max
    ensures forall t :: t in end.topics ==>
              end.topics[t] < |end.interests| && end.interests[end.topics[t]].refcount == |KeysOn(end.pending, t)|
    ensures forall k :: k in end.pending ==> k.topic in end.topics
  {
    InitialSound(max);
    RunsKeepSound(Initial(max), steps, end);
    hide KeysOn, ReadinessKept, GuardsKept, RemovalsKept, ClaimsKeyed, ClaimsMarked, ClaimsExclusive, ResultsMatch, TasksKnown;
  }

  lemma InitialSound(max: nat)
    requires max > 0
    ensures Sound(Initial(max))
  {
  }

  /**
   * Over every interleaving: a topic somebody waits on, once its readiness task has succeeded, has its observer on this
   * connection; a waiter has at most one undelivered claim of this connection; a result carries the waiter's own key.
   */
  lemma RoutingIsExclusive(max: nat, steps: seq<Step>, end: State)
    requires max > 0 && Runs(Initial(max), steps, end)
    ensures forall k :: k in end.pending ==>
              k.topic in end.topics && end.topics[k.topic] < |end.interests| &&
              (end.interests[end.topics[k.topic]].ready.Some? ==>
                 var task := end.interests[end.topics[k.topic]].ready.value;
                 && task < |end.tasks| && end.tasks[task].topic == k.topic && end.tasks[task].generation == end.generation
                 && (end.tasks[task].phase.Succeeded? ==> Observer(k.topic, end.generation) in end.observers))
    ensures ClaimsExclusive(end.claims, end.delivered, end.generation)
    ensures ResultsMatch(end.waiters)
  {
    InitialSound(max);
    RunsKeepSound(Initial(max), steps, end);
    hide KeysOn, ClaimsKeyed, ClaimsMarked, ClaimsExclusive, ResultsMatch, TasksKnown, GuardsKept, RemovalsKept, Unheld, Runs;
    forall k | k in end.pending
      ensures k.topic in end.topics && end.topics[k.topic] < |end.interests|
      ensures Keeper(end.topics, end.interests, k.topic) == end.interests[end.topics[k.topic]].ready
    {
    }
  }

  /** The step asks for this removal. */
  predicate AsksFor(s: State, z: State, op: OpId) {
    && op in z.unregistering && z.unregistering[op].AwaitRemoval? && !z.unregistering[op].removal.acted
    && (op in s.unregistering ==> s.unregistering[op] != z.unregistering[op])
  }

  lemma ReleaseAsks(s: State, op: OpId, i: InterestId, active: bool, o: OpId)
    requires i < |s.interests| && AsksFor(s, ReleaseInterest(s, op, i, active), o)
    ensures var z := ReleaseInterest(s, op, i, active); var removal := z.unregistering[o].removal;
            && removal.topic !in z.topics && removal.generation == s.generation && z.generation == s.generation
            && o == op && active && s.bound
  {
  }

  lemma UnregisterAsks(s: State, op: OpId, w: WaiterId, o: OpId)
    requires w < |s.waiters| && (Registered(s.pending, s.waiters, w) ==> HasTopic(s, w))
    requires AsksFor(s, Unregister(s, op, w), o)
    ensures var z := Unregister(s, op, w); var removal := z.unregistering[o].removal;
            removal.topic !in z.topics && removal.generation == s.generation && z.generation == s.generation
  {
    hide Registered;
    if Registered(s.pending, s.waiters, w) {
      var y := Withdrawn(Settle(s, w, Cancelled), w);
      var i := s.topics[s.waiters[w].key.topic];
      SettleFrame(s, w, Cancelled);
      WithdrawnFrame(Settle(s, w, Cancelled), w);
      hide Settle, Withdrawn, ReleaseInterest;
      if AsksFor(y, ReleaseInterest(y, op, i, true), o) {
        ReleaseAsks(y, op, i, true, o);
      }
      if AsksFor(y, ReleaseInterest(y, op, i, false), o) {
        ReleaseAsks(y, op, i, false, o);
      }
    }
  }

  lemma CloseAsks(s: State, op: OpId, w: WaiterId, o: OpId)
    requires w < |s.waiters| && (Registered(s.pending, s.waiters, w) ==> HasTopic(s, w))
    requires AsksFor(s, Close(s, op, w), o)
    ensures var z := Close(s, op, w); var removal := z.unregistering[o].removal;
            removal.topic !in z.topics && removal.generation == s.generation && z.generation == s.generation
  {
    if !s.waiters[w].closed {
      var y := s.(waiters := s.waiters[w := s.waiters[w].(closed := true)]);
      assert Registered(y.pending, y.waiters, w) == Registered(s.pending, s.waiters, w) && HasTopic(y, w) == HasTopic(s, w);
      hide Unregister, Registered, HasTopic;
      UnregisterAsks(y, op, w, o);
    }
  }

  /** A removal is asked for only when nobody waits on its topic any more. */
  lemma ReleasedWhenUnneeded(s: State, e: Step, op: OpId)
    requires Sound(s) && Applicable(s, e) && AsksFor(s, Apply(s, e), op)
    ensures var z := Apply(s, e); var removal := z.unregistering[op].removal;
            && removal.topic !in z.topics && KeysOn(z.pending, removal.topic) == {}
            && removal.generation == s.generation && z.generation == s.generation
  {
    var z := Apply(s, e);
    ApplicableIsEnabled(s, e);
    StepKeeps(s, e);
    StepAsks(s, e, op);
    WaitersAreKeyed(z);
    hide *;
    NoKeys(z.pending, z.unregistering[op].removal.topic, z.waiters, z.topics);
  }

  lemma WaitersAreKeyed(s: State)
    requires Sound(s)
    ensures WaitersKeyed(s.pending, s.waiters, s.topics)
  {
    hide WaitersKeyed, InterestsCounted, TasksKnown, ReadinessKept, GuardsKept, RemovalsKept, ClaimsKeyed,
         ClaimsMarked, ClaimsExclusive, ResultsMatch;
  }

  lemma StepAsks(s: State, e: Step, op: OpId)
    requires Applicable(s, e) && AsksFor(s, Apply(s, e), op)
    ensures var z := Apply(s, e); var removal := z.unregistering[op].removal;
            removal.topic !in z.topics && removal.generation == s.generation && z.generation == s.generation
  {
    hide Registered, KeyOf, Claimable, ReleaseInterest, Unregister, Close, HasTopic, GuardFree, Unheld, Unclaimed,
         Unready, AllFailed, FreshWaiter;
    match e
    case CloseStep(o, w) => CloseAsks(s, o, w, op);
    case AbandonStep(o, w) => UnregisterAsks(s, o, w, op);
    case ReadyStep(o, saw) => ReleaseAsks(s, o, s.unregistering[o].interest, saw, op);
    case _ =>
  }

  /** A step leaves a future alone, or settles a pending one: with a claimed message, or without a result. */
  lemma FutureStep(s: State, e: Step, w: WaiterId)
    requires Applicable(s, e) && w < |s.waiters|
    ensures w < |Apply(s, e).waiters|
    ensures var was, now := s.waiters[w].future, Apply(s, e).waiters[w].future;
            || now == was
            || (was.Pending? && now.Failed?)
            || (was.Pending? && now.Cancelled?)
            || (was.Pending? && e.DeliverStep? && now == Result(s.claims[e.claim].message) && s.claims[e.claim].waiter == w &&
                s.claims[e.claim].generation == s.generation && s.claims[e.claim].key in s.pending &&
                s.pending[s.claims[e.claim].key] == w)
  {
    hide Registered, KeyOf, Claimable, EnsureReady, ReleaseInterest, Register, Unregister, HasTopic, Close, GuardFree, Unheld;
    match e
    case RegisterStep(key) => RegisterFrame(s, key);
    case CloseStep(op, v) => CloseFrame(s, op, v);
    case AbandonStep(op, v) => UnregisterFrame(s, op, v);
    case ReadyStep(op, ok) => ReleaseFrame(s, op, s.unregistering[op].interest, ok);
    case RestoreStep(i) => ReadyFrame(s, i);
    case ClaimStep(m) => ClaimFrame(s, m);
    case _ =>
  }

  lemma ClaimFrame(s: State, m: Message)
    ensures var z := MakeClaim(s, m);
            |z.waiters| == |s.waiters| && forall w :: 0 <= w < |s.waiters| ==> z.waiters[w].future == s.waiters[w].future
  {
    hide KeyOf;
  }

  /** A future that is settled stays as it is. */
  lemma {:induction false} SettlesOnce(s: State, steps: seq<Step>, end: State, w: WaiterId)
    requires Runs(s, steps, end) && w < |s.waiters| && !s.waiters[w].future.Pending?
    ensures w < |end.waiters| && end.waiters[w].future == s.waiters[w].future
    decreases |steps|
  {
    hide Apply, Applicable;
    if steps != [] {
      FutureStep(s, steps[0], w);
      SettlesOnce(Apply(s, steps[0]), steps[1..], end, w);
    }
  }

  /** A result comes from delivering a claim made for this waiter on the current connection. */
  lemma ResultIsClaimed(s: State, e: Step, w: WaiterId)
    requires Sound(s) && Applicable(s, e) && w < |s.waiters| && s.waiters[w].future.Pending?
    requires w < |Apply(s, e).waiters| && Apply(s, e).waiters[w].future.Result?
    ensures e.DeliverStep? && e.claim < |s.claims|
    ensures var claim := s.claims[e.claim];
            && claim.waiter == w && claim.generation == s.generation && Registered(s.pending, s.waiters, w)
            && Apply(s, e).waiters[w].future == Result(claim.message)
            && KeyOf(claim.message) == Some(s.waiters[w].key)
  {
    FutureStep(s, e, w);
    hide KeyOf, KeysOn, ReadinessKept, GuardsKept, RemovalsKept, ClaimsMarked, ClaimsExclusive, InterestsCounted,
         TasksKnown, PermitsKept, Apply;
  }

  // Nothing is left behind.

  /** An interest nobody waits on is about to be looked at by an unregistration under way. */
  ghost predicate InterestsUsed(topics: map<string, InterestId>, interests: seq<Interest>,
                                unregistering: map<OpId, Unregistering>) {
    forall t :: t in topics && topics[t] < |interests| ==>
      interests[topics[t]].refcount > 0 || Awaited(unregistering, topics[t])
  }

  ghost predicate Awaited(unregistering: map<OpId, Unregistering>, i: InterestId) {
    exists op :: op in unregistering && Awaits(unregistering[op], i)
  }

  predicate Awaits(u: Unregistering, i: InterestId) { u.AwaitReady? && u.interest == i }

  lemma AwaitedElsewhere(unregistering: map<OpId, Unregistering>, op: OpId, u: Unregistering, j: InterestId)
    requires Awaited(unregistering, j) && (op in unregistering ==> !Awaits(unregistering[op], j))
    ensures Awaited(unregistering - {op}, j) && Awaited(unregistering[op := u], j)
  {
    var o :| o in unregistering && Awaits(unregistering[o], j);
    assert o != op && Awaits((unregistering - {op})[o], j) && Awaits(unregistering[op := u][o], j);
  }

  lemma ReleaseUses(s: State, op: OpId, i: InterestId, active: bool)
    requires i < |s.interests| && s.interests[i].refcount >= 0
    requires op in s.unregistering ==> Awaits(s.unregistering[op], i)
    requires forall t :: t in s.topics ==> s.topics[t] < |s.interests| && s.interests[s.topics[t]].topic == t
    requires forall t :: t in s.topics && s.topics[t] != i ==>
               s.interests[s.topics[t]].refcount > 0 || Awaited(s.unregistering, s.topics[t])
    ensures var z := ReleaseInterest(s, op, i, active); InterestsUsed(z.topics, z.interests, z.unregistering)
  {
    var removal := AwaitRemoval(Removal(s.interests[i].topic, s.generation, |s.tasks|, false));
    forall t | t in s.topics && s.topics[t] != i && s.interests[s.topics[t]].refcount <= 0
      ensures Awaited(s.unregistering - {op}, s.topics[t]) && Awaited(s.unregistering[op := removal], s.topics[t])
    {
      AwaitedElsewhere(s.unregistering, op, removal, s.topics[t]);
    }
    hide Awaited;
  }

  lemma CountsAreNat(s: State)
    requires Sound(s)
    ensures forall t :: t in s.topics ==>
              s.topics[t] < |s.interests| && s.interests[s.topics[t]].topic == t && s.interests[s.topics[t]].refcount >= 0
  {
    hide KeysOn, ReadinessKept, GuardsKept, RemovalsKept, ClaimsKeyed, ClaimsMarked, ClaimsExclusive, ResultsMatch, TasksKnown;
  }

  lemma SuspendUses(y: State, op: OpId, i: InterestId)
    requires i < |y.interests| && y.interests[i].refcount >= 0 && op !in y.unregistering
    requires forall t :: t in y.topics ==> y.topics[t] < |y.interests| && y.interests[y.topics[t]].topic == t
    requires forall t :: t in y.topics && y.topics[t] != i ==>
               y.interests[y.topics[t]].refcount > 0 || Awaited(y.unregistering, y.topics[t])
    ensures var z := Suspend(y, op, i); InterestsUsed(z.topics, z.interests, z.unregistering)
  {
    var k := if y.interests[i].ready.Some? then y.interests[i].ready.value else 0;
    SuspendIs(y, op, i, k);
    hide Suspend, ReleaseInterest;
    ReleaseUses(y, op, i, false);
    ReleaseUses(y, op, i, true);
    WaitUses(y, op, i, k);
    hide Awaited;
  }

  lemma WaitUses(y: State, op: OpId, i: InterestId, k: TaskId)
    requires i < |y.interests| && op !in y.unregistering
    requires forall t :: t in y.topics && y.topics[t] < |y.interests| && y.topics[t] != i ==>
               y.interests[y.topics[t]].refcount > 0 || Awaited(y.unregistering, y.topics[t])
    ensures InterestsUsed(y.topics, y.interests, y.unregistering[op := AwaitReady(i, k)])
  {
    forall t | t in y.topics && y.topics[t] != i && Awaited(y.unregistering, y.topics[t])
      ensures Awaited(y.unregistering[op := AwaitReady(i, k)], y.topics[t])
    {
      AwaitedElsewhere(y.unregistering, op, AwaitReady(i, k), y.topics[t]);
    }
    assert Awaits(y.unregistering[op := AwaitReady(i, k)][op], i);
    assert Awaited(y.unregistering[op := AwaitReady(i, k)], i);
    hide Awaited;
  }

  lemma WithdrawnUses(s: State, op: OpId, w: WaiterId)
    requires Sound(s) && Registered(s.pending, s.waiters, w) && op !in s.unregistering
    requires InterestsUsed(s.topics, s.interests, s.unregistering)
    ensures HasTopic(s, w) && HasTopic(Settle(s, w, Cancelled), w)
    ensures var z := Suspend(Withdrawn(Settle(s, w, Cancelled), w), op, s.topics[s.waiters[w].key.topic]);
            InterestsUsed(z.topics, z.interests, z.unregistering)
  {
    hide Registered, Settle, Suspend, Awaited, SoundButPermits;
    HasTopicIfRegistered(s, w);
    hide Sound;
    SettleFrame(s, w, Cancelled);
    CountsAreNat(s);
    RegisteredCounts(s, w);
    var settled := Settle(s, w, Cancelled);
    assert settled.waiters[w].key == s.waiters[w].key by {
      SettleKey(s, w);
    }
    SuspendUses(Withdrawn(settled, w), op, s.topics[s.waiters[w].key.topic]);
  }

  lemma SettleKey(s: State, w: WaiterId)
    requires w < |s.waiters|
    ensures w < |Settle(s, w, Cancelled).waiters| && Settle(s, w, Cancelled).waiters[w].key == s.waiters[w].key
  {
  }

  lemma RegisteredCounts(s: State, w: WaiterId)
    requires Sound(s) && Registered(s.pending, s.waiters, w) && HasTopic(s, w)
    ensures s.interests[s.topics[s.waiters[w].key.topic]].refcount >= 1
  {
    var key := s.waiters[w].key;
    assert key in KeysOn(s.pending, key.topic);
    hide ReadinessKept, GuardsKept, RemovalsKept, ClaimsKeyed, ClaimsMarked, ClaimsExclusive, ResultsMatch, TasksKnown;
  }

  lemma UnregisterUses(s: State, op: OpId, w: WaiterId)
    requires Sound(s) && w < |s.waiters| && op !in s.unregistering
    requires InterestsUsed(s.topics, s.interests, s.unregistering)
    ensures Registered(s.pending, s.waiters, w) ==> HasTopic(s, w)
    ensures var z := Unregister(s, op, w); InterestsUsed(z.topics, z.interests, z.unregistering)
  {
    if Registered(s.pending, s.waiters, w) {
      WithdrawnUses(s, op, w);
    }
    hide Sound, Suspend, Withdrawn, Settle, InterestsUsed;
  }

  lemma RegisterUses(s: State, key: Key)
    requires Sound(s) && InterestsUsed(s.topics, s.interests, s.unregistering)
    ensures key.topic in s.topics ==> s.topics[key.topic] < |s.interests|
    ensures var z := Register(s, key); InterestsUsed(z.topics, z.interests, z.unregistering)
  {
    CountsAreNat(s);
    hide Sound, Awaited, FreshWaiter;
    if key !in s.pending && s.bound {
      var y := Enrolled(s, key);
      assert y.topics[key.topic] < |y.interests|;
      assert InterestsUsed(y.topics, y.interests, y.unregistering);
      hide Enrolled, InterestsUsed, EnsureReady;
      RestoreUses(y, y.topics[key.topic]);
    }
  }

  lemma StepUses(s: State, e: Step)
    requires Sound(s) && Applicable(s, e) && InterestsUsed(s.topics, s.interests, s.unregistering)
    ensures var z := Apply(s, e); InterestsUsed(z.topics, z.interests, z.unregistering)
  {
    hide Sound, InterestsUsed, Register, Close, Unregister, Bind, EnsureReady, KeyOf, Claimable, Registered, HasTopic, GuardFree, Unheld;
    match e
    case RegisterStep(key) => RegisterUses(s, key);
    case ReturnStep(w) =>
    case CloseStep(op, w) => CloseUses(s, op, w);
    case AbandonStep(op, w) => UnregisterUses(s, op, w);
    case ReadyStep(op, ok) => ReadyUses(s, op, ok);
    case RemovalStep(op) => RemovedUses(s, op, AwaitRemoval(s.unregistering[op].removal.(acted := true)));
    case RemovedStep(op) => RemovedUses(s, op, s.unregistering[op]);
    case BindStep => BindUses(s);
    case RestoreStep(i) => RestoreUses(s, i);
    case CancelPendingStep => NoTopics(s.interests, s.unregistering);
    case CancelFutureStep(w) =>
    case ClaimStep(m) =>
    case DeliverStep(c) =>
    case StartStep(_, _) =>
    case AckStep(_, _) =>
    case AbortStep(_) =>
  }

  lemma NoTopics(interests: seq<Interest>, unregistering: map<OpId, Unregistering>)
    ensures InterestsUsed(map[], interests, unregistering)
  {
  }

  lemma CloseUses(s: State, op: OpId, w: WaiterId)
    requires Sound(s) && w < |s.waiters| && op !in s.unregistering
    requires InterestsUsed(s.topics, s.interests, s.unregistering)
    ensures Registered(s.pending, s.waiters, w) ==> HasTopic(s, w)
    ensures var z := Close(s, op, w); InterestsUsed(z.topics, z.interests, z.unregistering)
  {
    UnregisterUses(s, op, w);
    if !s.waiters[w].closed {
      var y := s.(waiters := s.waiters[w := s.waiters[w].(closed := true)]);
      WaiterUpdated(s, w, y.waiters[w]);
      hide SoundButPermits, Unregister, InterestsUsed;
      UnregisterUses(y, op, w);
    }
  }

  lemma BindUses(s: State)
    requires Sound(s) && InterestsUsed(s.topics, s.interests, s.unregistering)
    ensures var z := Bind(s); InterestsUsed(z.topics, z.interests, z.unregistering)
  {
    CountsAreNat(s);
    hide Sound, Awaited, Registered;
  }

  lemma RestoreUses(s: State, i: InterestId)
    requires i < |s.interests| && InterestsUsed(s.topics, s.interests, s.unregistering)
    ensures var z := EnsureReady(s, i); InterestsUsed(z.topics, z.interests, z.unregistering)
  {
    hide Awaited;
  }

  lemma ReadyUses(s: State, op: OpId, ok: bool)
    requires Sound(s) && Applicable(s, ReadyStep(op, ok)) && InterestsUsed(s.topics, s.interests, s.unregistering)
    ensures var z := Apply(s, ReadyStep(op, ok)); InterestsUsed(z.topics, z.interests, z.unregistering)
  {
    CountsAreNat(s);
    var i := s.unregistering[op].interest;
    hide Sound, Awaited, ReleaseInterest;
    if s.interests[i].refcount >= 0 {
      ReleaseUses(s, op, i, ok);
    } else {
      StaleUses(s, op, i, ok);
    }
  }

  /** An interest that is no longer the topic's own is left alone. */
  lemma StaleUses(s: State, op: OpId, i: InterestId, ok: bool)
    requires i < |s.interests| && s.interests[i].refcount < 0
    requires op in s.unregistering && Awaits(s.unregistering[op], i)
    requires InterestsUsed(s.topics, s.interests, s.unregistering)
    requires forall t :: t in s.topics ==> s.topics[t] < |s.interests| && s.interests[s.topics[t]].refcount >= 0
    ensures var z := ReleaseInterest(s, op, i, ok); InterestsUsed(z.topics, z.interests, z.unregistering)
  {
    forall t | t in s.topics && s.interests[s.topics[t]].refcount <= 0
      ensures Awaited(s.unregistering - {op}, s.topics[t])
    {
      AwaitedElsewhere(s.unregistering, op, s.unregistering[op], s.topics[t]);
    }
    hide Awaited;
  }

  lemma RemovedUses(s: State, op: OpId, u: Unregistering)
    requires op in s.unregistering && s.unregistering[op].AwaitRemoval?
    requires InterestsUsed(s.topics, s.interests, s.unregistering)
    ensures InterestsUsed(s.topics, s.interests, s.unregistering - {op})
    ensures InterestsUsed(s.topics, s.interests, s.unregistering[op := u])
  {
    forall t | t in s.topics && s.topics[t] < |s.interests| && s.interests[s.topics[t]].refcount <= 0
      ensures Awaited(s.unregistering - {op}, s.topics[t]) && Awaited(s.unregistering[op := u], s.topics[t])
    {
      AwaitedElsewhere(s.unregistering, op, u, s.topics[t]);
    }
    hide Awaited;
  }

  lemma {:induction false} RunsUse(s: State, steps: seq<Step>, end: State)
    requires Sound(s) && InterestsUsed(s.topics, s.interests, s.unregistering) && Runs(s, steps, end)
    ensures InterestsUsed(end.topics, end.interests, end.unregistering)
    decreases |steps|
  {
    hide Sound, Apply, Enabled, InterestsUsed;
    if steps != [] {
      ApplicableIsEnabled(s, steps[0]);
      StepKeeps(s, steps[0]);
      StepUses(s, steps[0]);
      RunsUse(Apply(s, steps[0]), steps[1..], end);
    }
  }

  /** When nobody waits and no unregistration is under way, no topic is left and every permit is free. */
  lemma QuietIsEmpty(max: nat, steps: seq<Step>, end: State)
    requires max > 0 && Runs(Initial(max), steps, end) && end.pending == map[] && end.unregistering == map[]
    ensures end.topics == map[] && end.free == max
  {
    PermitsAndRefcounts(max, steps, end);
    InitialSound(max);
    RunsUse(Initial(max), steps, end);
    forall t | t in end.topics
      ensures KeysOn(end.pending, t) == {}
    {
    }
    hide Runs;
    NobodyAwaited(end.unregistering);
    assert forall t :: t !in end.topics;
  }

  lemma NobodyAwaited(unregistering: map<OpId, Unregistering>)
    requires unregistering == map[]
    ensures forall i :: !Awaited(unregistering, i)
  {
  }

  // Observers left behind.

  /** The observer is in place on this connection, and no SUBSCRIBE for it is under way any more. */
  predicate Settled(s: State, t: string) { Observer(t, s.generation) in s.observers && Unheld(s.tasks, t, s.generation) }

  /** A removal that will take the observer out is on its way, other than the one of `but`. */
  ghost predicate Due(s: State, t: string, but: Option<OpId>) {
    exists op :: op in s.unregistering && Waits(s.unregistering[op], t, s.generation) && but != Some(op)
  }

  predicate Waits(u: Unregistering, t: string, generation: nat) { Removes(u, t, generation) && !u.removal.acted }

  /** Somebody is still responsible for the observer of the topic. */
  ghost predicate Kept(s: State, t: string) { Keeper(s.topics, s.interests, t).Some? || Due(s, t, None) }

  /** No observer is in place that nobody will ever take out. */
  ghost predicate NoStray(s: State) { forall t: string :: Settled(s, t) ==> Kept(s, t) }

  /** The observer of the topic is in place and no removal is on its way: whoever forgets the topic has to ask for one. */
  ghost predicate Owed(s: State, t: string) { Settled(s, t) && !Due(s, t, None) }

  /** The end of `unregister` would take the interest off the record. */
  predicate Forgets(s: State, i: InterestId) {
    i < |s.interests| && s.interests[i].refcount == 0 && OnTopic(s.topics, s.interests, i)
  }

  /** Unregistering the waiter forgets its topic at once: it is the last one, and the readiness task is over. */
  predicate Leaves(s: State, w: WaiterId) {
    && Registered(s.pending, s.waiters, w) && HasTopic(s, w)
    && var i := s.topics[s.waiters[w].key.topic];
       s.interests[i].refcount == 1 && s.interests[i].ready.Some? &&
       (Over(s.tasks, s.interests[i].ready.value, Succeeded) || Over(s.tasks, s.interests[i].ready.value, Aborted))
  }

  /** Unregistering the waiter does not forget a topic whose observer is in place without asking for its removal. */
  ghost predicate LeavesTidy(s: State, w: WaiterId) {
    Leaves(s, w) && Owed(s, s.waiters[w].key.topic) ==>
      s.bound && Over(s.tasks, s.interests[s.topics[s.waiters[w].key.topic]].ready.value, Succeeded)
  }

  /**
   * What keeps observers from being left behind. A topic whose observer is in place is forgotten only by a task that saw
   * its readiness succeed, on a bound connection; a readiness task succeeds only while somebody is responsible for its
   * observer; a removal is not given up before it has acted, unless somebody else is responsible.
   */
  ghost predicate Tidy(s: State, e: Step)
    requires Applicable(s, e)
  {
    match e
    case CloseStep(_, w) => !s.waiters[w].closed ==> LeavesTidy(s, w)
    case AbandonStep(_, w) => LeavesTidy(s, w)
    case ReadyStep(op, saw) =>
      var i := s.unregistering[op].interest;
      Forgets(s, i) && Owed(s, s.interests[i].topic) ==> saw && s.bound
    case StartStep(k, isLocal) => isLocal && s.tasks[k].generation == s.generation ==> KeptOrThere(s, s.tasks[k].topic)
    case AckStep(k, ok) => ok && s.tasks[k].generation == s.generation ==> Kept(s, s.tasks[k].topic)
    case RemovedStep(op) => GivesUpTidy(s, op)
    case _ => true
  }

  ghost predicate KeptOrThere(s: State, t: string) { Kept(s, t) || Observer(t, s.generation) in s.observers }

  ghost predicate GivesUpTidy(s: State, op: OpId)
    requires op in s.unregistering && s.unregistering[op].AwaitRemoval?
  {
    var r := s.unregistering[op].removal;
    !r.acted && r.generation == s.generation && Settled(s, r.topic) ==>
      Keeper(s.topics, s.interests, r.topic).Some? || Due(s, r.topic, Some(op))
  }

  /** Observers in place and those responsible for them are as before, but perhaps for one topic. */
  ghost predicate SameBut(s: State, z: State, topic: string) {
    forall t: string :: t != topic ==> Settled(z, t) == Settled(s, t) && Kept(z, t) == Kept(s, t)
  }

  lemma OneTopic(s: State, z: State, topic: string)
    requires NoStray(s) && SameBut(s, z, topic)
    ensures NoStray(z) <==> (Settled(z, topic) ==> Kept(z, topic))
  {
    hide Settled, Kept;
  }

  lemma MoreKept(s: State, z: State)
    requires NoStray(s) && forall t: string :: (Settled(z, t) ==> Settled(s, t)) && (Kept(s, t) ==> Kept(z, t))
    ensures NoStray(z)
  {
    hide Settled, Kept;
  }

  /** The parts that matter here are the same. */
  lemma SameStray(s: State, z: State)
    requires z.tasks == s.tasks && z.observers == s.observers && z.generation == s.generation && z.unregistering == s.unregistering
    requires forall t: string :: Keeper(z.topics, z.interests, t) == Keeper(s.topics, s.interests, t)
    ensures forall t: string :: Settled(z, t) == Settled(s, t) && Kept(z, t) == Kept(s, t)
    ensures forall t: string, but: Option<OpId> :: Due(z, t, but) == Due(s, t, but)
    ensures NoStray(z) == NoStray(s)
  {
    hide Keeper, Unheld;
  }

  /** Readiness tasks and removals aside, what an unregistration does to its own record does not matter. */
  lemma DueWithout(s: State, op: OpId, u: Unregistering, t: string)
    ensures Due(s.(unregistering := s.unregistering - {op}), t, None) <==> Due(s, t, Some(op))
    ensures Due(s.(unregistering := s.unregistering[op := u]), t, None) <==> Due(s, t, Some(op)) || Waits(u, t, s.generation)
    ensures Due(s, t, None) <==> Due(s, t, Some(op)) || (op in s.unregistering && Waits(s.unregistering[op], t, s.generation))
  {
    var less, more := s.(unregistering := s.unregistering - {op}), s.(unregistering := s.unregistering[op := u]);
    if Due(s, t, Some(op)) {
      var o :| o in s.unregistering && Waits(s.unregistering[o], t, s.generation) && o != op;
      assert Waits(less.unregistering[o], t, s.generation) && Waits(more.unregistering[o], t, s.generation);
    }
    assert more.unregistering[op] == u;
    hide Waits;
  }

  lemma ReleaseTidy(s: State, op: OpId, i: InterestId, active: bool)
    requires NoStray(s) && i < |s.interests| && (op in s.unregistering ==> s.unregistering[op].AwaitReady?)
    ensures NoStray(ReleaseInterest(s, op, i, active)) <==> (Forgets(s, i) && Owed(s, s.interests[i].topic) ==> active && s.bound)
  {
    var topic := s.interests[i].topic;
    var z := ReleaseInterest(s, op, i, active);
    var removal := AwaitRemoval(Removal(topic, s.generation, |s.tasks|, false));
    forall t: string
      ensures Settled(z, t) == Settled(s, t)
      ensures Keeper(z.topics, z.interests, t) == if Forgets(s, i) && t == topic then None else Keeper(s.topics, s.interests, t)
      ensures Due(z, t, None) <==> Due(s, t, None) || (Forgets(s, i) && active && s.bound && t == topic)
    {
      DueWithout(s, op, removal, t);
      DueSame(s.(unregistering := s.unregistering - {op}), z, t);
      DueSame(s.(unregistering := s.unregistering[op := removal]), z, t);
    }
    hide ReleaseInterest, Settled, Due, Keeper, Forgets;
  }

  lemma DueSame(s: State, z: State, t: string)
    requires z.generation == s.generation
    ensures z.unregistering == s.unregistering ==> Due(z, t, None) == Due(s, t, None)
  {
  }

  lemma SuspendTidy(y: State, op: OpId, i: InterestId)
    requires NoStray(y) && i < |y.interests| && op !in y.unregistering && OnTopic(y.topics, y.interests, i)
    requires y.interests[i].ready.Some? ==> y.interests[i].ready.value < |y.tasks|
    ensures var ready := y.interests[i].ready;
            NoStray(Suspend(y, op, i)) <==>
            (y.interests[i].refcount == 0 && ready.Some? && Owed(y, y.interests[i].topic) &&
             (Over(y.tasks, ready.value, Succeeded) || Over(y.tasks, ready.value, Aborted)) ==>
               y.bound && Over(y.tasks, ready.value, Succeeded))
  {
    var k := if y.interests[i].ready.Some? then y.interests[i].ready.value else 0;
    ReleaseTidy(y, op, i, false);
    ReleaseTidy(y, op, i, true);
    WaitTidy(y, op, AwaitReady(i, k));
    if y.interests[i].ready.None? {
      UnreadyNotOwed(y, i);
    }
    SameStray(y, y.(free := y.free + 1));
    hide ReleaseInterest, Owed, NoStray;
  }

  lemma UnreadyNotOwed(s: State, i: InterestId)
    requires NoStray(s) && OnTopic(s.topics, s.interests, i) && s.interests[i].ready.None?
    ensures !Owed(s, s.interests[i].topic)
  {
    hide Settled, Due;
  }

  /** Waiting for readiness is no removal. */
  lemma WaitTidy(s: State, op: OpId, u: Unregistering)
    requires NoStray(s) && op !in s.unregistering && u.AwaitReady?
    ensures NoStray(s.(unregistering := s.unregistering[op := u]))
  {
    var z := s.(unregistering := s.unregistering[op := u]);
    forall t: string
      ensures Settled(z, t) == Settled(s, t) && Kept(z, t) == Kept(s, t)
    {
      DueWithout(s, op, u, t);
      DueSame(s.(unregistering := s.unregistering[op := u]), z, t);
    }
    hide Settled, Kept;
  }

  lemma UnregisterTidy(s: State, op: OpId, w: WaiterId)
    requires NoStray(s) && w < |s.waiters| && op !in s.unregistering
    requires Registered(s.pending, s.waiters, w) ==> HasTopic(s, w)
    requires forall t :: t in s.topics ==> s.topics[t] < |s.interests| && s.interests[s.topics[t]].topic == t
    requires ReadinessSound(s)
    ensures NoStray(Unregister(s, op, w)) <==> LeavesTidy(s, w)
  {
    if Registered(s.pending, s.waiters, w) {
      var y := Withdrawn(Settle(s, w, Cancelled), w);
      var i := s.topics[s.waiters[w].key.topic];
      WithdrawnSame(s, w);
      SameStray(s, y);
      KeeperKnown(s, s.waiters[w].key.topic);
      hide Registered, Settle, Withdrawn, Suspend, NoStray, Settled, Due, ReadinessSound;
      SuspendTidy(y, op, i);
    } else {
      hide NoStray, Owed;
    }
  }

  lemma KeeperKnown(s: State, t: string)
    requires ReadinessSound(s)
    ensures Keeper(s.topics, s.interests, t).Some? ==> Keeper(s.topics, s.interests, t).value < |s.tasks|
  {
    hide Keeper, Unheld, GuardsKept, RemovalsKept;
  }

  lemma WithdrawnSame(s: State, w: WaiterId)
    requires HasTopic(s, w) && s.interests[s.topics[s.waiters[w].key.topic]].topic == s.waiters[w].key.topic
    ensures HasTopic(Settle(s, w, Cancelled), w)
    ensures var y := Withdrawn(Settle(s, w, Cancelled), w); var i := s.topics[s.waiters[w].key.topic];
            && y.tasks == s.tasks && y.observers == s.observers && y.generation == s.generation
            && y.unregistering == s.unregistering && y.bound == s.bound && y.topics == s.topics && i < |y.interests|
            && OnTopic(y.topics, y.interests, i) && y.interests[i] == s.interests[i].(refcount := s.interests[i].refcount - 1)
            && forall t: string :: Keeper(y.topics, y.interests, t) == Keeper(s.topics, s.interests, t)
  {
  }

  lemma CloseTidy(s: State, op: OpId, w: WaiterId)
    requires NoStray(s) && w < |s.waiters| && op !in s.unregistering
    requires Registered(s.pending, s.waiters, w) ==> HasTopic(s, w)
    requires forall t :: t in s.topics ==> s.topics[t] < |s.interests| && s.interests[s.topics[t]].topic == t
    requires ReadinessSound(s)
    ensures NoStray(Close(s, op, w)) <==> (!s.waiters[w].closed ==> LeavesTidy(s, w))
  {
    if !s.waiters[w].closed {
      var y := s.(waiters := s.waiters[w := s.waiters[w].(closed := true)]);
      SameStray(s, y);
      ClosedLeaves(s, y, w);
      FewerKeepers(s, y);
      hide Unregister, LeavesTidy, NoStray, ReadinessSound;
      UnregisterTidy(y, op, w);
    }
  }

  lemma ClosedLeaves(s: State, y: State, w: WaiterId)
    requires w < |s.waiters| && y == s.(waiters := s.waiters[w := s.waiters[w].(closed := true)])
    ensures LeavesTidy(y, w) == LeavesTidy(s, w)
    ensures Registered(y.pending, y.waiters, w) == Registered(s.pending, s.waiters, w) && HasTopic(y, w) == HasTopic(s, w)
  {
    SameStray(s, y);
    hide Settled, Due;
  }

  lemma EnsureReadyTidy(s: State, i: InterestId)
    requires NoStray(s) && i < |s.interests|
    requires forall t :: t in s.topics ==> s.topics[t] < |s.interests| && s.interests[s.topics[t]].topic == t
    ensures NoStray(EnsureReady(s, i))
  {
    if s.interests[i].ready.None? {
      var z := EnsureReady(s, i);
      EnsuredKeepers(s, i);
      NewTaskHolds(s.tasks, s.interests[i].topic, s.generation);
      forall t: string
        ensures Due(z, t, None) == Due(s, t, None)
      {
        DueSame(s, z, t);
      }
      hide Keeper, Unheld, Due, NoStray;
      MoreKept(s, z);
    }
  }

  lemma RegisterTidy(s: State, key: Key)
    requires NoStray(s) && ReadinessSound(s)
    requires forall t :: t in s.topics ==> s.topics[t] < |s.interests| && s.interests[s.topics[t]].topic == t
    ensures NoStray(Register(s, key))
  {
    if key !in s.pending && s.bound {
      var z := Enrolled(s, key);
      EnrolledReadiness(s, key);
      SameStray(s, z);
      assert forall t :: t in z.topics ==> z.topics[t] < |z.interests| && z.interests[z.topics[t]].topic == t;
      hide NoStray, Enrolled, EnsureReady, ReadinessSound, Keeper, Settled, Kept, Due;
      EnsureReadyTidy(z, z.topics[key.topic]);
    }
  }

  /** Steps of the connection change neither interests nor who waits for a removal. */
  lemma KeptSame(s: State, z: State)
    requires z.topics == s.topics && z.interests == s.interests && z.unregistering == s.unregistering && z.generation == s.generation
    ensures forall t: string :: Kept(z, t) == Kept(s, t)
  {
    hide Keeper, Waits;
  }

  lemma StartTidy(s: State, k: TaskId, isLocal: bool)
    requires NoStray(s) && GuardsKept(s.tasks, s.observers, s.generation) && Over(s.tasks, k, Queued) && GuardFree(s, k)
    ensures var t := s.tasks[k].topic;
            NoStray(StartTask(s, k, isLocal)) <==> (isLocal && s.tasks[k].generation == s.generation ==> KeptOrThere(s, t))
  {
    var z := StartTask(s, k, isLocal);
    var Task(topic, generation, _) := s.tasks[k];
    hide Kept, GuardsKept;
    MovedHolds(s.tasks, k, z.tasks[k].phase);
    UnheldBack(s.tasks, z.tasks, k);
    KeptSame(s, z);
    assert Unheld(s.tasks, topic, generation);
    assert z.tasks[k].phase.Subscribing? ==> !Unheld(z.tasks, topic, generation) by {
      assert z.tasks[k].phase.Subscribing? ==> Holds(z.tasks, k, topic, generation);
    }
    hide Unheld, Holds, GuardFree;
    OneTopic(s, z, topic);
  }

  lemma AckTidy(s: State, k: TaskId, ok: bool)
    requires NoStray(s) && GuardsKept(s.tasks, s.observers, s.generation) && Over(s.tasks, k, Subscribing)
    ensures NoStray(EndTask(s, k, ok)) <==> (ok && s.tasks[k].generation == s.generation ==> Kept(s, s.tasks[k].topic))
  {
    var z := EndTask(s, k, ok);
    var Task(topic, generation, _) := s.tasks[k];
    MovedHolds(s.tasks, k, z.tasks[k].phase);
    UnheldBack(s.tasks, z.tasks, k);
    KeptSame(s, z);
    assert Holds(s.tasks, k, topic, generation);
    assert Unheld(z.tasks, topic, generation);
    hide Unheld, Holds, Kept;
    OneTopic(s, z, topic);
  }

  lemma AbortTidy(s: State, k: TaskId)
    requires NoStray(s) && Over(s.tasks, k, Queued)
    ensures NoStray(s.(tasks := s.tasks[k := s.tasks[k].(phase := Aborted)]))
  {
    var z := s.(tasks := s.tasks[k := s.tasks[k].(phase := Aborted)]);
    UnheldBack(s.tasks, z.tasks, k);
    KeptSame(s, z);
    hide Unheld, Kept, NoStray;
    MoreKept(s, z);
  }

  lemma ActTidy(s: State, op: OpId)
    requires NoStray(s) && Enabled(s, RemovalStep(op))
    ensures NoStray(ActRemoval(s, op))
  {
    var z := ActRemoval(s, op);
    var r := s.unregistering[op].removal;
    var u := AwaitRemoval(r.(acted := true));
    forall t: string
      ensures t != r.topic || r.generation != s.generation ==> Kept(z, t) == Kept(s, t)
    {
      DueWithout(s, op, u, t);
      DueSame(s.(unregistering := s.unregistering[op := u]), z, t);
    }
    hide Unheld, Kept, NoStray;
    if r.generation == s.generation {
      OneTopic(s, z, r.topic);
    } else {
      MoreKept(s, z);
    }
  }

  lemma RemovedTidy(s: State, op: OpId)
    requires NoStray(s) && op in s.unregistering && s.unregistering[op].AwaitRemoval?
    ensures NoStray(s.(free := s.free + 1, unregistering := s.unregistering - {op})) <==> GivesUpTidy(s, op)
  {
    var z := s.(free := s.free + 1, unregistering := s.unregistering - {op});
    var r := s.unregistering[op].removal;
    forall t: string
      ensures Settled(z, t) == Settled(s, t)
      ensures Due(z, t, None) <==> Due(s, t, Some(op))
      ensures Due(s, t, None) <==> Due(s, t, Some(op)) || (t == r.topic && r.generation == s.generation && !r.acted)
    {
      DueWithout(s, op, s.unregistering[op], t);
      DueSame(s.(unregistering := s.unregistering - {op}), z, t);
    }
    hide Settled, Due, Keeper;
    OneTopic(s, z, r.topic);
  }

  lemma NewConnectionTidy(s: State, z: State)
    requires GuardsKept(s.tasks, s.observers, s.generation) && z.observers == s.observers && z.generation == s.generation + 1
    ensures NoStray(z)
  {
    assert forall t: string :: Observer(t, z.generation) !in s.observers;
    hide Unheld, Kept;
  }

  lemma ReadinessParts(s: State)
    requires Sound(s)
    ensures ReadinessSound(s) && GuardsKept(s.tasks, s.observers, s.generation)
    ensures forall t :: t in s.topics ==> s.topics[t] < |s.interests| && s.interests[s.topics[t]].topic == t
  {
    TopicsKnown(s);
    hide WaitersKeyed, TasksKnown, GuardsKept, ReadinessKept, RemovalsKept, ClaimsKeyed, ClaimsMarked, ClaimsExclusive,
         ResultsMatch, PermitsKept;
  }

  /** From a state in which no observer is left behind, a step leaves one behind if and only if it is untidy. */
  lemma StepTidy(s: State, e: Step)
    requires Sound(s) && NoStray(s) && Applicable(s, e)
    ensures NoStray(Apply(s, e)) <==> Tidy(s, e)
  {
    var z := Apply(s, e);
    ReadinessParts(s);
    StepForms(s, e);
    hide *;
    match e
    case RegisterStep(key) => RegisterTidy(s, key);
    case CloseStep(op, w) => CloseTidy(s, op, w);
    case AbandonStep(op, w) => UnregisterTidy(s, op, w);
    case ReadyStep(op, saw) => ReleaseTidy(s, op, s.unregistering[op].interest, saw);
    case RemovalStep(op) => ActTidy(s, op);
    case RemovedStep(op) => RemovedTidy(s, op);
    case RestoreStep(i) => EnsureReadyTidy(s, i);
    case BindStep => NewConnectionTidy(s, z);
    case CancelPendingStep => NewConnectionTidy(s, z);
    case StartStep(k, isLocal) => StartTidy(s, k, isLocal);
    case AckStep(k, ok) => AckTidy(s, k, ok);
    case AbortStep(k) => AbortTidy(s, k);
    case _ => SameStray(s, z);
  }

  lemma StepForms(s: State, e: Step)
    requires Applicable(s, e)
    ensures Enabled(s, e)
    ensures var z := Apply(s, e);
            match e
            case RegisterStep(key) => z == Register(s, key) && Tidy(s, e)
            case CloseStep(op, w) =>
              && w < |s.waiters| && op !in s.unregistering && (Registered(s.pending, s.waiters, w) ==> HasTopic(s, w))
              && z == Close(s, op, w) && (Tidy(s, e) <==> (!s.waiters[w].closed ==> LeavesTidy(s, w)))
            case AbandonStep(op, w) =>
              && w < |s.waiters| && op !in s.unregistering && (Registered(s.pending, s.waiters, w) ==> HasTopic(s, w))
              && z == Unregister(s, op, w) && (Tidy(s, e) <==> LeavesTidy(s, w))
            case ReadyStep(op, saw) =>
              && op in s.unregistering && s.unregistering[op].AwaitReady? && s.unregistering[op].interest < |s.interests|
              && z == ReleaseInterest(s, op, s.unregistering[op].interest, saw)
              && (Tidy(s, e) <==> (Forgets(s, s.unregistering[op].interest) && Owed(s, s.interests[s.unregistering[op].interest].topic) ==>
                                     saw && s.bound))
            case RemovalStep(op) => op in s.unregistering && s.unregistering[op].AwaitRemoval? && z == ActRemoval(s, op) && Tidy(s, e)
            case RemovedStep(op) =>
              && op in s.unregistering && s.unregistering[op].AwaitRemoval?
              && z == s.(free := s.free + 1, unregistering := s.unregistering - {op}) && (Tidy(s, e) <==> GivesUpTidy(s, op))
            case RestoreStep(i) => i < |s.interests| && z == EnsureReady(s, i) && Tidy(s, e)
            case BindStep => z.observers == s.observers && z.generation == s.generation + 1 && Tidy(s, e)
            case CancelPendingStep => z.observers == s.observers && z.generation == s.generation + 1 && Tidy(s, e)
            case StartStep(k, isLocal) =>
              && Over(s.tasks, k, Queued) && k < |s.tasks| && GuardFree(s, k) && z == StartTask(s, k, isLocal)
              && (Tidy(s, e) <==> (isLocal && s.tasks[k].generation == s.generation ==> KeptOrThere(s, s.tasks[k].topic)))
            case AckStep(k, ok) =>
              && Over(s.tasks, k, Subscribing) && k < |s.tasks| && z == EndTask(s, k, ok)
              && (Tidy(s, e) <==> (ok && s.tasks[k].generation == s.generation ==> Kept(s, s.tasks[k].topic)))
            case AbortStep(k) =>
              Over(s.tasks, k, Queued) && k < |s.tasks| && z == s.(tasks := s.tasks[k := s.tasks[k].(phase := Aborted)]) && Tidy(s, e)
            case _ =>
              && z.tasks == s.tasks && z.observers == s.observers && z.generation == s.generation && z.unregistering == s.unregistering
              && (forall t: string :: Keeper(z.topics, z.interests, t) == Keeper(s.topics, s.interests, t)) && Tidy(s, e)
  {
    hide Register, Close, Unregister, EnsureReady, ReleaseInterest, Registered, HasTopic, Forgets, Owed, Kept, KeptOrThere,
         LeavesTidy, GivesUpTidy, GuardFree, StartTask, EndTask, ActRemoval, Unclaimed, Unready, AllFailed, KeyOf, Unheld;
  }

  ghost predicate TidyRun(s: State, steps: seq<Step>)
    decreases |steps|
  {
    steps != [] && Applicable(s, steps[0]) ==> Tidy(s, steps[0]) && TidyRun(Apply(s, steps[0]), steps[1..])
  }

  ghost predicate NeverStray(s: State, steps: seq<Step>)
    decreases |steps|
  {
    NoStray(s) && (steps != [] && Applicable(s, steps[0]) ==> NeverStray(Apply(s, steps[0]), steps[1..]))
  }

  lemma {:induction false} RunsTidy(s: State, steps: seq<Step>, end: State)
    requires Sound(s) && NoStray(s) && Runs(s, steps, end)
    ensures NeverStray(s, steps) <==> TidyRun(s, steps)
    ensures TidyRun(s, steps) ==> NoStray(end)
    decreases |steps|
  {
    hide Sound, NoStray, Applicable, Apply, Tidy;
    if steps != [] {
      ApplicableIsEnabled(s, steps[0]);
      StepKeeps(s, steps[0]);
      StepTidy(s, steps[0]);
      if Tidy(s, steps[0]) {
        RunsTidy(Apply(s, steps[0]), steps[1..], end);
      } else {
        StrayAtOnce(Apply(s, steps[0]), steps[1..]);
      }
    }
  }

  lemma StrayAtOnce(s: State, steps: seq<Step>)
    requires !NoStray(s)
    ensures !NeverStray(s, steps)
  {
    hide NoStray, Applicable, Apply;
  }

  /** Throughout a run no observer is left behind, if and only if every step of it is tidy. */
  lemma TidyExactly(max: nat, steps: seq<Step>, end: State)
    requires max > 0 && Runs(Initial(max), steps, end)
    ensures NeverStray(Initial(max), steps) <==> TidyRun(Initial(max), steps)
  {
    InitialSound(max);
    RunsTidy(Initial(max), steps, end);
  }

  /** Nobody waits, no unregistration is under way, and no SUBSCRIBE of this connection awaits its answer. */
  predicate AtRest(s: State) {
    && s.pending == map[] && s.unregistering == map[]
    && forall k :: 0 <= k < |s.tasks| && s.tasks[k].generation == s.generation ==> !s.tasks[k].phase.Subscribing?
  }

  /**
   * Once all is at rest, an observer remains on the connection if and only if one was left behind; none was after a tidy
   * run, whatever became of its readiness tasks.
   */
  lemma NoObserverLeft(max: nat, steps: seq<Step>, end: State)
    requires max > 0 && Runs(Initial(max), steps, end) && AtRest(end)
    ensures (forall t: string :: Observer(t, end.generation) !in end.observers) <==> NoStray(end)
    ensures TidyRun(Initial(max), steps) ==> forall t: string :: Observer(t, end.generation) !in end.observers
  {
    InitialSound(max);
    QuietIsEmpty(max, steps, end);
    RunsTidy(Initial(max), steps, end);
    forall t: string
      ensures Settled(end, t) <==> Observer(t, end.generation) in end.observers
      ensures !Kept(end, t)
    {
    }
    hide Runs, TidyRun, NeverStray, Sound, Settled, Kept;
  }

  // A registration cancelled twice.

  const REPLY := Key("t", [1])

  /** One waiter's readiness task has sent its SUBSCRIBE. */
  const ASKING := State(1, 0, map[REPLY := 0], map["t" := 0], [Waiter(REPLY, Pending, false, false, 0, false)], [Interest("t", 1, Some(0))],
                        true, 1, map[], [], {}, [Task("t", 1, Subscribing)], {Observer("t", 1)})

  lemma RegistrationAsks()
    ensures Runs(Initial(1), [BindStep, RegisterStep(REPLY), StartStep(0, false)], ASKING)
  {
    var s1 := Initial(1).(bound := true, generation := 1);
    assert Apply(Initial(1), BindStep) == s1;
    var s2 := ASKING.(tasks := [Task("t", 1, Queued)], observers := {});
    assert Apply(s1, RegisterStep(REPLY)) == s2;
    assert Apply(s2, StartStep(0, false)) == ASKING;
    RunsBack(s2, StartStep(0, false), [], ASKING);
    RunsBack(s1, RegisterStep(REPLY), [StartStep(0, false)], ASKING);
    RunsBack(Initial(1), BindStep, [RegisterStep(REPLY), StartStep(0, false)], ASKING);
  }

  const CANCELLED_TWICE := ASKING.(free := 1, pending := map[], topics := map[],
                                   waiters := [Waiter(REPLY, Cancelled, false, false, 0, false)], interests := [Interest("t", 0, Some(0))],
                                   tasks := [Task("t", 1, Succeeded)])

  lemma CancelledTwice()
    ensures Runs(ASKING, [AbandonStep(0, 0), ReadyStep(0, false), AckStep(0, true)], CANCELLED_TWICE)
  {
    TopicForgottenUnseen();
    var s2 := CANCELLED_TWICE.(tasks := ASKING.tasks);
    assert Apply(s2, AckStep(0, true)) == CANCELLED_TWICE;
    RunsBack(s2, AckStep(0, true), [], CANCELLED_TWICE);
    RunsJoin(ASKING, [AbandonStep(0, 0), ReadyStep(0, false)], s2, [AckStep(0, true)], CANCELLED_TWICE);
  }

  lemma TopicForgottenUnseen()
    ensures Runs(ASKING, [AbandonStep(0, 0), ReadyStep(0, false)], CANCELLED_TWICE.(tasks := ASKING.tasks))
  {
    var s1 := CANCELLED_TWICE.(free := 0, topics := map["t" := 0], unregistering := map[0 := AwaitReady(0, 0)], tasks := ASKING.tasks);
    assert Apply(ASKING, AbandonStep(0, 0)) == s1;
    var s2 := CANCELLED_TWICE.(tasks := ASKING.tasks);
    assert Apply(s1, ReadyStep(0, false)) == s2;
    RunsBack(s1, ReadyStep(0, false), [], s2);
    RunsBack(ASKING, AbandonStep(0, 0), [ReadyStep(0, false)], s2);
  }

  /**
   * A registration is cancelled while it awaits readiness, and cancelled again in the wait of its own `unregister`. The
   * topic is forgotten; the readiness task goes on, SUBACK comes, and the observer stays with nobody waiting.
   */
  lemma CancelledTwiceLeavesObserver() returns (steps: seq<Step>, end: State)
    ensures Runs(Initial(1), steps, end) && AtRest(end) && end.bound && Observer("t", end.generation) in end.observers
  {
    RegistrationAsks();
    CancelledTwice();
    var first, second := [BindStep, RegisterStep(REPLY), StartStep(0, false)], [AbandonStep(0, 0), ReadyStep(0, false), AckStep(0, true)];
    RunsJoin(Initial(1), first, ASKING, second, CANCELLED_TWICE);
    steps, end := first + second, CANCELLED_TWICE;
    hide Runs;
  }

  const REJECTED := ASKING.(free := 1, pending := map[], topics := map[],
                            waiters := [Waiter(REPLY, Cancelled, false, false, 0, false)], interests := [Interest("t", 0, Some(0))],
                            tasks := [Task("t", 1, Aborted)], observers := {})

  lemma Rejected()
    ensures Runs(ASKING, [AckStep(0, false), AbandonStep(0, 0)], REJECTED)
  {
    var s1 := ASKING.(tasks := [Task("t", 1, Aborted)], observers := {});
    assert Apply(ASKING, AckStep(0, false)) == s1;
    assert Apply(s1, AbandonStep(0, 0)) == REJECTED;
    RunsBack(s1, AbandonStep(0, 0), [], REJECTED);
    RunsBack(ASKING, AckStep(0, false), [AbandonStep(0, 0)], REJECTED);
  }

  /** The broker rejects the response topic instead: the registration fails, and nothing is left. */
  lemma RejectionLeavesNothing() returns (steps: seq<Step>, end: State)
    ensures Runs(Initial(1), steps, end) && AtRest(end) && end.bound && end.observers == {} && end.topics == map[] && end.free == 1
    ensures AckStep(0, false) in steps
  {
    RegistrationAsks();
    var first, second := [BindStep, RegisterStep(REPLY), StartStep(0, false)], [AckStep(0, false), AbandonStep(0, 0)];
    Rejected();
    RunsJoin(Initial(1), first, ASKING, second, REJECTED);
    steps, end := first + second, REJECTED;
    assert second[0] in steps;
    hide Runs;
  }

  lemma {:induction false} RunsJoin(s: State, first: seq<Step>, mid: State, second: seq<Step>, end: State)
    requires Runs(s, first, mid) && Runs(mid, second, end)
    ensures Runs(s, first + second, end)
    decreases |first|
  {
    hide Applicable, Apply;
    if first == [] {
      assert first + second == second;
    } else {
      RunsJoin(Apply(s, first[0]), first[1..], mid, second, end);
      assert (first + second)[1..] == first[1..] + second && (first + second)[0] == first[0];
    }
  }

  /** A run with one more step in front. */
  lemma RunsBack(s: State, e: Step, steps: seq<Step>, end: State)
    requires Applicable(s, e) && Runs(Apply(s, e), steps, end)
    ensures Runs(s, [e] + steps, end)
  {
    assert ([e] + steps)[0] == e && ([e] + steps)[1..] == steps;
    hide Applicable, Apply;
  }

  /** The guard of `complete`: the claim's connection is current, its waiter still registered and not settled. */
  predicate Reaches(s: State, c: ClaimId) {
    c < |s.claims| &&
    var claim := s.claims[c];
    && s.generation == claim.generation && claim.key in s.pending && s.pending[claim.key] == claim.waiter
    && claim.waiter < |s.waiters| && s.waiters[claim.waiter].future.Pending?
  }

  /** Delivering a claim gives its waiter the message exactly when the guard holds, and touches nobody else. */
  lemma ClaimReachesExactly(s: State, c: ClaimId)
    requires Sound(s) && c < |s.claims|
    ensures var w, z := s.claims[c].waiter, Complete(s, c);
            && w < |s.waiters| && |z.waiters| == |s.waiters|
            && (Reaches(s, c) <==> s.waiters[w].future.Pending? && z.waiters[w].future == Result(s.claims[c].message))
            && (!Reaches(s, c) ==> z.waiters == s.waiters)
            && forall v :: 0 <= v < |s.waiters| && v != w ==> z.waiters[v] == s.waiters[v]
  {
    hide InterestsCounted, TasksKnown, ReadinessKept, GuardsKept, RemovalsKept, ClaimsMarked, ClaimsExclusive, KeyOf, KeysOn, WaitersKeyed;
  }

  /** A claim just made passes the guard. */
  lemma FreshClaimReaches(s: State, m: Message)
    requires Sound(s) && Claimable(s, m)
    ensures Reaches(MakeClaim(s, m), |s.claims|) && MakeClaim(s, m).claims[|s.claims|].message == m
    ensures forall c :: 0 <= c < |s.claims| ==> MakeClaim(s, m).claims[c] == s.claims[c]
  {
    hide InterestsCounted, TasksKnown, ReadinessKept, GuardsKept, RemovalsKept, ClaimsMarked, ClaimsExclusive, KeysOn;
  }

  /** Nothing but delivering a claim gives anybody a result. */
  lemma OnlyDeliveryAnswers(s: State, e: Step)
    requires Applicable(s, e) && !e.ClaimStep? && !e.DeliverStep?
    ensures Apply(s, e).claims == s.claims && |Apply(s, e).waiters| >= |s.waiters|
    ensures forall w :: 0 <= w < |s.waiters| && s.waiters[w].future.Result? ==> Apply(s, e).waiters[w].future == s.waiters[w].future
    ensures forall w :: 0 <= w < |Apply(s, e).waiters| && Apply(s, e).waiters[w].future.Result? ==>
              w < |s.waiters| && Apply(s, e).waiters[w].future == s.waiters[w].future
  {
    RecordsFixed(s, e);
    NewWaitersPending(s, e);
    forall w: WaiterId | w < |s.waiters|
      ensures w < |Apply(s, e).waiters|
      ensures s.waiters[w].future.Result? || Apply(s, e).waiters[w].future.Result? ==>
                Apply(s, e).waiters[w].future == s.waiters[w].future
    {
      FutureStep(s, e, w);
    }
    hide Apply, Applicable;
  }

  lemma NewWaitersPending(s: State, e: Step)
    requires Applicable(s, e)
    ensures |s.waiters| <= |Apply(s, e).waiters|
    ensures forall w :: |s.waiters| <= w < |Apply(s, e).waiters| ==> Apply(s, e).waiters[w].future.Pending?
  {
    hide Registered, KeyOf, Claimable, EnsureReady, ReleaseInterest, Register, Unregister, HasTopic, Close, GuardFree, Unheld;
    match e
    case RegisterStep(key) => RegisterFrame(s, key);
    case CloseStep(op, v) => CloseFrame(s, op, v);
    case AbandonStep(op, v) => UnregisterFrame(s, op, v);
    case ReadyStep(op, ok) => ReleaseFrame(s, op, s.unregistering[op].interest, ok);
    case RestoreStep(i) => ReadyFrame(s, i);
    case ClaimStep(m) => ClaimFrame(s, m);
    case _ =>
  }

  /** Registering takes a permit, and the waiter awaits the readiness task its topic has on this connection. */
  lemma RegisteredIsObserved(s: State, key: Key)
    requires Sound(s) && s.free > 0 && s.bound && key !in s.pending
    ensures key.topic in s.topics ==> s.topics[key.topic] < |s.interests|
    ensures var z := Register(s, key);
            && key in z.pending && z.pending[key] == |s.waiters| && |z.waiters| == |s.waiters| + 1 && z.free == s.free - 1
            && var task := z.waiters[|s.waiters|].ready;
               && Keeper(z.topics, z.interests, key.topic) == Some(task)
               && task < |z.tasks| && z.tasks[task].topic == key.topic && z.tasks[task].generation == s.generation
  {
    CountsAreNat(s);
    RegisterKeeps(s, key);
    var z := Register(s, key);
    hide KeysOn, ClaimsKeyed, ClaimsMarked, ClaimsExclusive, ResultsMatch, TasksKnown, PermitsKept, WaitersKeyed,
         GuardsKept, RemovalsKept, Unheld;
    assert z.interests[z.topics[key.topic]].ready.Some?;
  }

  // The dispatcher as an object.

  class RequestDispatcher {
    const capacity: int
    var free: int
    var pending: map<Key, WaiterId>
    var topics: map<string, InterestId>
    var waiters: seq<Waiter>
    var interests: seq<Interest>
    var bound: bool
    var generation: nat
    var unregistering: map<OpId, Unregistering>
    var claims: seq<Claim>
    ghost var delivered: set<ClaimId>
    var tasks: seq<Task>
    var observers: set<Observer>            // kept by the connections there have been, not by the dispatcher

    ghost function Now(): State
      reads this
    {
      State(capacity, free, pending, topics, waiters, interests, bound, generation, unregistering, claims, delivered, tasks, observers)
    }

    ghost predicate Valid()
      reads this
    {
      Sound(Now())
    }

    /** None is the ValueError raised for a capacity of zero or less. */
    static method Create(max: int) returns (r: Option<RequestDispatcher>)
      ensures r.Some? <==> max > 0
      ensures r.Some? ==> fresh(r.value) && r.value.Valid() && r.value.Now() == Initial(max)
    {
      if max <= 0 {
        return None;
      }
      var d := new RequestDispatcher(max);
      r := Some(d);
    }

    constructor (max: nat)
      requires max > 0
      ensures Valid() && Now() == Initial(max)
    {
      capacity, free, pending, topics, waiters, interests := max, max, map[], map[], [], [];
      bound, generation, unregistering, claims, delivered, tasks, observers := false, 0, map[], [], {}, [], {};
      new;
      InitialSound(max);
    }

    /** `_ensure_topic_ready` with a protocol bound. */
    method EnsureTopicReady(i: InterestId)
      requires i < |interests|
      modifies `interests, `tasks
      ensures Now() == EnsureReady(old(Now()), i)
    {
      if interests[i].ready.None? {
        interests := interests[i := interests[i].(ready := Some(|tasks|))];
        tasks := tasks + [Task(interests[i].topic, generation, Queued)];
      }
    }

    /** Put a new waiter on record and count it on its topic. */
    method Enroll(key: Key) returns (w: WaiterId)
      requires key.topic in topics ==> topics[key.topic] < |interests|
      modifies `free, `pending, `topics, `waiters, `interests
      ensures Now() == Enrolled(old(Now()), key) && w == |old(waiters)|
      ensures key.topic in topics && topics[key.topic] < |interests|
    {
      var waiter := WaiterFor(topics, interests, tasks, key);
      free := free - 1;
      var i;
      if key.topic in topics {
        i := topics[key.topic];
      } else {
        i := |interests|;
        interests := interests + [Interest(key.topic, 0, None)];
        topics := topics[key.topic := i];
      }
      w := |waiters|;
      waiters := waiters + [waiter];
      pending := pending[key := w];
      interests := interests[i := interests[i].(refcount := interests[i].refcount + 1)];
    }

    /** `register`, resumed by its permit, up to the await of the readiness task. None is an exception. */
    method BeginRegister(key: Key) returns (r: Option<WaiterId>)
      requires Valid() && free > 0
      modifies `free, `pending, `topics, `waiters, `interests, `tasks
      ensures Valid() && Now() == Register(old(Now()), key)
      ensures r.Some? <==> key !in old(pending) && bound
      ensures r.Some? ==> r.value == |old(waiters)|
    {
      RegisterKeeps(Now(), key);
      TopicsKnown(Now());
      hide Sound, Enrolled, EnsureReady;
      if key in pending || !bound {
        return None;
      }
      var w := Enroll(key);
      EnsureTopicReady(topics[key.topic]);
      r := Some(w);
    }

    /** Take a registered waiter off the record and off its topic's count. */
    method Withdraw(w: WaiterId)
      requires HasTopic(Now(), w)
      modifies `pending, `waiters, `interests
      ensures HasTopic(Settle(old(Now()), w, Cancelled), w)
      ensures Now() == Withdrawn(Settle(old(Now()), w, Cancelled), w)
    {
      var key := waiters[w].key;
      pending := pending - {key};
      if waiters[w].future.Pending? {
        waiters := waiters[w := waiters[w].(future := Cancelled)];
      }
      var i := topics[key.topic];
      interests := interests[i := interests[i].(refcount := interests[i].refcount - 1)];
    }

    method SuspendUnregister(op: OpId, i: InterestId)
      requires i < |interests|
      modifies `free, `topics, `unregistering
      ensures Now() == Suspend(old(Now()), op, i)
    {
      hide ReleaseInterest;
      if interests[i].refcount > 0 {
        free := free + 1;
      } else if interests[i].ready.None? {
        FinishUnregister(op, i, false);
      } else {
        var k := interests[i].ready.value;
        if k < |tasks| && (tasks[k].phase.Succeeded? || tasks[k].phase.Aborted?) {
          FinishUnregister(op, i, tasks[k].phase.Succeeded?);
        } else {
          unregistering := unregistering[op := AwaitReady(i, k)];
        }
      }
    }

    /** `unregister` up to its first await, as task `op`. */
    method BeginUnregister(op: OpId, w: WaiterId)
      requires Valid() && w < |waiters| && op !in unregistering
      modifies `free, `pending, `topics, `waiters, `interests, `unregistering
      ensures Valid() && (Registered(old(pending), old(waiters), w) ==> HasTopic(old(Now()), w))
      ensures Now() == Unregister(old(Now()), op, w)
    {
      UnregisterKeeps(Now(), op, w);
      hide Sound, Withdrawn, Settle, Suspend;
      var key := waiters[w].key;
      if key !in pending || pending[key] != w {
        return;
      }
      var i := topics[key.topic];
      WithdrawnSize(Now(), w);
      Withdraw(w);
      SuspendUnregister(op, i);
    }

    /** The `finally` blocks of `unregister`, up to the await of the observer's removal. */
    method FinishUnregister(op: OpId, i: InterestId, active: bool)
      requires i < |interests|
      modifies `free, `topics, `unregistering
      ensures Now() == ReleaseInterest(old(Now()), op, i, active)
    {
      var topic := interests[i].topic;
      if interests[i].refcount == 0 && topic in topics && topics[topic] == i {
        topics := topics - {topic};
        if active && bound {
          unregistering := unregistering[op := AwaitRemoval(Removal(topic, generation, |tasks|, false))];
          return;
        }
      }
      free := free + 1;
      unregistering := unregistering - {op};
    }

    /** The readiness task of a suspended `unregister` is seen to succeed, or the wait for it is over otherwise. */
    method ResumeReady(op: OpId, saw: bool)
      requires Valid() && Enabled(Now(), ReadyStep(op, saw))
      modifies `free, `topics, `unregistering
      ensures Valid() && old(unregistering)[op].interest < |interests|
      ensures Now() == ReleaseInterest(old(Now()), op, old(unregistering)[op].interest, saw)
      ensures var i := old(unregistering)[op].interest; var forgets := Forgets(old(Now()), i);
              && topics == (if forgets then old(topics) - {interests[i].topic} else old(topics))
              && (op in unregistering <==> forgets && saw && bound)
              && (op in unregistering ==> unregistering[op] == AwaitRemoval(Removal(interests[i].topic, generation, |tasks|, false)))
              && free == old(free) + if op in unregistering then 0 else 1
      ensures old(NoStray(Now())) && (Forgets(old(Now()), old(unregistering)[op].interest) ==> saw && bound) ==> NoStray(Now())
    {
      ReadyKeeps(Now(), op, saw);
      if NoStray(Now()) {
        ReleaseTidy(Now(), op, unregistering[op].interest, saw);
      }
      hide Sound, NoStray;
      FinishUnregister(op, unregistering[op].interest, saw);
    }

    /** `remove_response_observer` has the guard of its topic: the observer goes. */
    method ActOnRemoval(op: OpId)
      requires Valid() && Enabled(Now(), RemovalStep(op))
      modifies `observers, `unregistering
      ensures Valid() && Now() == ActRemoval(old(Now()), op)
      ensures var r := old(unregistering)[op].removal; Observer(r.topic, r.generation) !in observers
      ensures old(NoStray(Now())) ==> NoStray(Now())
    {
      ActKeeps(Now(), op);
      if NoStray(Now()) {
        ActTidy(Now(), op);
      }
      hide Sound, NoStray;
      var r := unregistering[op].removal;
      observers := observers - {Observer(r.topic, r.generation)};
      unregistering := unregistering[op := AwaitRemoval(r.(acted := true))];
    }

    /** `remove_response_observer` has returned, failed or been cancelled: the permit goes back. */
    method ResumeRemoval(op: OpId)
      requires Valid() && op in unregistering && unregistering[op].AwaitRemoval?
      modifies `free, `unregistering
      ensures Valid() && free == old(free) + 1 && unregistering == old(unregistering) - {op}
    {
      RemovedKeeps(Now(), op);
      hide Sound;
      free, unregistering := free + 1, unregistering - {op};
    }

    /** A readiness task gets the guard of its topic. */
    method StartReadiness(k: TaskId, isLocal: bool)
      requires Valid() && Over(tasks, k, Queued) && GuardFree(Now(), k)
      modifies `tasks, `observers
      ensures Valid() && Now() == StartTask(old(Now()), k, isLocal)
      ensures k < |tasks| && Observer(tasks[k].topic, tasks[k].generation) in observers
      ensures tasks[k].phase.Succeeded? <==> isLocal || Observer(tasks[k].topic, tasks[k].generation) in old(observers)
    {
      hide Sound, GuardFree;
      StartKeeps(Now(), k, isLocal);
      var Task(topic, generation, _) := tasks[k];
      if Observer(topic, generation) in observers {
        tasks := tasks[k := Task(topic, generation, Succeeded)];
        return;
      }
      observers := observers + {Observer(topic, generation)};
      tasks := tasks[k := Task(topic, generation, if isLocal then Succeeded else Subscribing)];
    }

    /** Its SUBSCRIBE is answered, or has failed: then the observer is taken out again. */
    method EndReadiness(k: TaskId, ok: bool)
      requires Valid() && Over(tasks, k, Subscribing)
      modifies `tasks, `observers
      ensures Valid() && Now() == EndTask(old(Now()), k, ok)
      ensures k < |tasks| && (Observer(tasks[k].topic, tasks[k].generation) in observers <==> ok)
    {
      hide Sound;
      EndKeeps(Now(), k, ok);
      SubscribingIsIn(Now(), k);
      var Task(topic, generation, _) := tasks[k];
      if ok {
        tasks := tasks[k := Task(topic, generation, Succeeded)];
      } else {
        tasks := tasks[k := Task(topic, generation, Aborted)];
        observers := observers - {Observer(topic, generation)};
      }
    }

    /** `register` returns: its readiness task has succeeded. */
    method ReturnRequest(w: WaiterId)
      requires Valid() && Enabled(Now(), ReturnStep(w))
      modifies `waiters
      ensures Valid() && waiters == old(waiters)[w := old(waiters)[w].(returned := true)]
    {
      StepKeeps(Now(), ReturnStep(w));
      hide Sound;
      waiters := waiters[w := waiters[w].(returned := true)];
    }

    /** `_PendingRequest.close`, as task `op`: the second close does nothing. */
    method CloseRequest(op: OpId, w: WaiterId)
      requires Valid() && w < |waiters| && op !in unregistering && waiters[w].returned
      modifies `free, `pending, `topics, `waiters, `interests, `unregistering
      ensures Valid() && (Registered(old(pending), old(waiters), w) ==> HasTopic(old(Now()), w))
      ensures Now() == Close(old(Now()), op, w)
    {
      CloseKeeps(Now(), op, w);
      WaiterUpdated(Now(), w, waiters[w].(closed := true));
      hide SoundButPermits, Unregister;
      if !waiters[w].closed {
        waiters := waiters[w := waiters[w].(closed := true)];
        BeginUnregister(op, w);
      }
    }

    /** One round of `restore`: an interest somebody waits on has a readiness task on this connection. */
    method Restore(topic: string)
      requires Valid() && bound && topic in topics
      modifies `interests, `tasks
      ensures Valid() && topics[topic] < |interests|
      ensures |interests| == |old(interests)| && interests[topics[topic]].refcount == old(interests)[topics[topic]].refcount
      ensures interests[topics[topic]].refcount > 0 ==>
                && interests[topics[topic]].ready.Some? && interests[topics[topic]].ready.value < |tasks|
                && tasks[interests[topics[topic]].ready.value].topic == topic
                && tasks[interests[topics[topic]].ready.value].generation == generation
      ensures old(interests)[topics[topic]].ready.Some? || interests[topics[topic]].refcount <= 0 ==> Now() == old(Now())
      ensures old(interests)[topics[topic]].ready.None? && interests[topics[topic]].refcount > 0 ==>
                && tasks == old(tasks) + [Task(topic, generation, Queued)]
                && interests == old(interests)[topics[topic] := old(interests)[topics[topic]].(ready := Some(|old(tasks)|))]
      ensures old(NoStray(Now())) ==> NoStray(Now())
    {
      ReadinessParts(Now());
      var i := topics[topic];
      EnsureReadyKeeps(Now(), i);
      hide Sound, NoStray, GuardsKept, RemovalsKept, Unheld;
      if interests[i].refcount > 0 {
        if NoStray(Now()) {
          EnsureReadyTidy(Now(), i);
        }
        EnsureTopicReady(i);
        ReadinessParts(Now());
        assert Keeper(topics, interests, topic) == interests[i].ready;
      }
    }

    method Reserve(m: Message) returns (r: Option<ClaimId>)
      requires Valid()
      modifies `waiters, `claims
      ensures Valid() && Now() == MakeClaim(old(Now()), m)
      ensures r == if Claimable(old(Now()), m) then Some(|old(claims)|) else None
    {
      hide Sound;
      ClaimKeeps(Now(), m);
      KeysKnown(Now());
      if m.correlation.None? {
        return None;
      }
      var key := Key(m.topic, m.correlation.value);
      if key !in pending {
        return None;
      }
      var w := pending[key];
      if waiters[w].claimed || !waiters[w].future.Pending? {
        return None;
      }
      waiters := waiters[w := waiters[w].(claimed := true)];
      claims := claims + [Claim(w, key, m, generation)];
      r := Some(|claims| - 1);
    }

    method Deliver(c: ClaimId)
      requires Valid() && c < |claims|
      modifies `waiters, `delivered
      ensures Valid() && Now() == Complete(old(Now()), c)
      ensures claims[c].waiter < |waiters|
      ensures old(Reaches(Now(), c)) ==> waiters[claims[c].waiter].future == Result(claims[c].message)
      ensures !old(Reaches(Now(), c)) ==> waiters == old(waiters)
    {
      hide Sound;
      CompleteKeeps(Now(), c);
      ClaimReachesExactly(Now(), c);
      KeysKnown(Now());
      hide Keyed;
      var claim := claims[c];
      delivered := delivered + {c};
      if generation == claim.generation && claim.key in pending && pending[claim.key] == claim.waiter {
        if waiters[claim.waiter].future.Pending? {
          waiters := waiters[claim.waiter := waiters[claim.waiter].(future := Result(claim.message))];
        }
      }
    }

    /** `for pending in self._pending.values(): pending.claimed = False`. */
    method ResetClaims()
      requires Keyed(pending, waiters)
      modifies `waiters
      ensures waiters == Unclaimed(pending, old(waiters))
    {
      hide KeysOn, OnTopic;
      var keys := pending.Keys;
      while keys != {}
        invariant keys <= pending.Keys && |waiters| == |old(waiters)|
        invariant forall w :: 0 <= w < |waiters| ==>
                    waiters[w] == if Registered(pending, old(waiters), w) && old(waiters)[w].key !in keys
                                  then old(waiters)[w].(claimed := false) else old(waiters)[w]
        decreases |keys|
      {
        var key :| key in keys;
        waiters := waiters[pending[key] := waiters[pending[key]].(claimed := false)];
        keys := keys - {key};
      }
    }

    /** `for interest in self._topics.values(): interest.ready = None`. */
    method ResetReadiness()
      requires forall t :: t in topics ==> topics[t] < |interests| && interests[topics[t]].topic == t
      modifies `interests
      ensures interests == Unready(topics, old(interests))
    {
      hide KeysOn, Registered;
      var names := topics.Keys;
      while names != {}
        invariant names <= topics.Keys && |interests| == |old(interests)|
        invariant forall i :: 0 <= i < |interests| ==>
                    interests[i] == if OnTopic(topics, old(interests), i) && old(interests)[i].topic !in names
                                    then old(interests)[i].(ready := None) else old(interests)[i]
        decreases |names|
      {
        var topic :| topic in names;
        interests := interests[topics[topic] := interests[topics[topic]].(ready := None)];
        names := names - {topic};
      }
    }

    /** A new connection: claims of the old one no longer count, and every topic needs its observer again. */
    method BindProtocol()
      requires Valid()
      modifies `bound, `generation, `waiters, `interests
      ensures Valid() && Now() == Bind(old(Now()))
    {
      hide Sound, Unclaimed, Unready, Registered, OnTopic, KeysOn;
      BindKeeps(Now());
      KeysKnown(Now());
      ReadinessParts(Now());
      bound, generation := true, generation + 1;
      ResetClaims();
      ResetReadiness();
    }

    /** Fail every waiter still pending, one permit back for each. */
    method FailWaiters(was: map<Key, WaiterId>)
      requires Keyed(was, waiters)
      modifies `free, `waiters
      ensures waiters == AllFailed(was, old(waiters)) && free == old(free) + |was|
    {
      hide KeysOn;
      var keys := was.Keys;
      assert |keys| == |was|;
      while keys != {}
        invariant keys <= was.Keys && |waiters| == |old(waiters)| && free == old(free) + |was| - |keys|
        invariant forall w :: 0 <= w < |waiters| ==>
                    waiters[w] == if Registered(was, old(waiters), w) && old(waiters)[w].key !in keys && old(waiters)[w].future.Pending?
                                  then old(waiters)[w].(future := Failed) else old(waiters)[w]
        decreases |keys|
      {
        var key :| key in keys;
        var w := was[key];
        if waiters[w].future.Pending? {
          waiters := waiters[w := waiters[w].(future := Failed)];
        }
        free := free + 1;
        keys := keys - {key};
      }
    }

    /** Shutdown: every waiter fails and gives its permit back. */
    method CancelAll()
      requires Valid()
      modifies `free, `pending, `topics, `bound, `generation, `waiters
      ensures Valid() && Now() == CancelPending(old(Now()))
    {
      hide Sound, Registered, AllFailed, Keyed, KeysOn;
      CancelPendingKeeps(Now());
      KeysKnown(Now());
      var was := pending;
      pending, topics, bound, generation := map[], map[], false, generation + 1;
      FailWaiters(was);
    }
  }

  lemma WithdrawnSize(s: State, w: WaiterId)
    requires HasTopic(s, w)
    ensures HasTopic(Settle(s, w, Cancelled), w)
    ensures |Withdrawn(Settle(s, w, Cancelled), w).interests| == |s.interests|
  {
  }

  lemma SubscribingIsIn(s: State, k: TaskId)
    requires Sound(s) && Over(s.tasks, k, Subscribing)
    ensures Observer(s.tasks[k].topic, s.tasks[k].generation) in s.observers
  {
    hide WaitersKeyed, InterestsCounted, TasksKnown, ReadinessKept, RemovalsKept, ClaimsKeyed, ClaimsMarked,
         ClaimsExclusive, ResultsMatch, Unheld;
  }

  predicate Keyed(pending: map<Key, WaiterId>, waiters: seq<Waiter>) {
    forall k :: k in pending ==> pending[k] < |waiters| && waiters[pending[k]].key == k
  }

  lemma KeysKnown(s: State)
    requires Sound(s)
    ensures Keyed(s.pending, s.waiters)
  {
  }
}
