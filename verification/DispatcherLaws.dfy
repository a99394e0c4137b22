/** What each operation of the request dispatcher does to its fields. */
module DispatcherLaws {
  import opened Util
  import opened Dispatcher

  /** The fields no operation on waiters touches. */
  predicate SameConnection(s: State, z: State) {
    z.capacity == s.capacity && z.bound == s.bound && z.generation == s.generation && z.observers == s.observers
  }

  predicate SameClaims(s: State, z: State) { z.claims == s.claims && z.delivered == s.delivered }

  /**
   * `register` takes a permit, a record and a place in its topic's count, and starts the topic's readiness task if none has
   * been started on this connection; a key in use or a missing connection leaves all as it was.
   */
  lemma RegisterExactly(s: State, key: Key)
    requires Sound(s)
    ensures key.topic in s.topics ==> s.topics[key.topic] < |s.interests|
    ensures key in s.pending || !s.bound ==> Register(s, key) == s
    ensures key !in s.pending && s.bound ==>
              var z := Register(s, key); var known := key.topic in s.topics;
              var i := if known then s.topics[key.topic] else |s.interests|;
              var started := known && s.interests[i].ready.Some?;
              var k := if started then s.interests[i].ready.value else |s.tasks|;
              && z.free == s.free - 1 && z.pending == s.pending[key := |s.waiters|] && z.topics == s.topics[key.topic := i]
              && z.waiters == s.waiters + [Waiter(key, Pending, false, false, k, k < |s.tasks| && s.tasks[k].phase.Succeeded?)]
              && |z.interests| == |s.interests| + (if known then 0 else 1)
              && z.interests[i] == Interest(key.topic, (if known then s.interests[i].refcount else 0) + 1, Some(k))
              && (forall j :: 0 <= j < |s.interests| && j != i ==> z.interests[j] == s.interests[j])
              && z.tasks == s.tasks + (if started then [] else [Task(key.topic, s.generation, Queued)])
              && z.unregistering == s.unregistering && SameConnection(s, z) && SameClaims(s, z)
  {
    hide Sound;
    ReadinessParts(s);
  }

  /** Another unregistration of a waiter no longer registered, and a second close, do nothing. */
  lemma UnregisteredOnce(s: State, op: OpId, w: WaiterId)
    requires w < |s.waiters| && !(s.waiters[w].key in s.pending && s.pending[s.waiters[w].key] == w)
    ensures Unregister(s, op, w) == s
    ensures s.waiters[w].closed ==> Close(s, op, w) == s
    ensures !s.waiters[w].closed ==> Close(s, op, w) == s.(waiters := s.waiters[w := s.waiters[w].(closed := true)])
  {
    assert !Registered(s.pending, s.waiters, w);
    var y := s.(waiters := s.waiters[w := s.waiters[w].(closed := true)]);
    assert !Registered(y.pending, y.waiters, w);
  }

  /** What `unregister` leaves to do: nothing for a topic still in use, else the wait for its readiness, or its end. */
  ghost predicate LeftToDo(s: State, z: State, op: OpId, topic: string, left: int, ready: Option<TaskId>) {
    var over := ready.None? || (ready.value < |s.tasks| && (s.tasks[ready.value].phase.Succeeded? || s.tasks[ready.value].phase.Aborted?));
    var active := ready.Some? && ready.value < |s.tasks| && s.tasks[ready.value].phase.Succeeded? && s.bound;
    if left > 0 then
      z.topics == s.topics && z.free == s.free + 1 && z.unregistering == s.unregistering
    else if !over then
      z.topics == s.topics && z.free == s.free && topic in s.topics &&
      z.unregistering == s.unregistering[op := AwaitReady(s.topics[topic], ready.value)]
    else if active then
      && z.topics == s.topics - {topic} && z.free == s.free
      && z.unregistering == s.unregistering[op := AwaitRemoval(Removal(topic, s.generation, |s.tasks|, false))]
    else
      z.topics == s.topics - {topic} && z.free == s.free + 1 && z.unregistering == s.unregistering
  }

  /** `unregister` of a registered waiter, up to its first await. */
  lemma UnregisterExactly(s: State, op: OpId, w: WaiterId)
    requires Sound(s) && w < |s.waiters| && s.waiters[w].key in s.pending && s.pending[s.waiters[w].key] == w
    requires op !in s.unregistering
    ensures var key := s.waiters[w].key; key.topic in s.topics && s.topics[key.topic] < |s.interests|
    ensures Registered(s.pending, s.waiters, w) && HasTopic(s, w)
    ensures var key := s.waiters[w].key; var i := s.topics[key.topic]; var z := Unregister(s, op, w);
            && z.pending == s.pending - {key}
            && z.waiters == s.waiters[w := s.waiters[w].(future := if s.waiters[w].future.Pending? then Cancelled
                                                                   else s.waiters[w].future)]
            && z.interests == s.interests[i := s.interests[i].(refcount := s.interests[i].refcount - 1)]
            && LeftToDo(s, z, op, key.topic, s.interests[i].refcount - 1, s.interests[i].ready)
            && z.tasks == s.tasks && SameConnection(s, z) && SameClaims(s, z)
  {
    hide *;
    HasTopicSound(s, w);
    CountsAreNat(s);
    ReadinessParts(s);
    RegisteredCounts(s, w);
    WithdrawnForm(s, op, w);
    var key := s.waiters[w].key;
    SuspendLeaves(Withdrawn(Settle(s, w, Cancelled), w), op, s.topics[key.topic], key.topic);
    LeftSame(s, Withdrawn(Settle(s, w, Cancelled), w), Unregister(s, op, w), op, key.topic);
  }

  lemma WithdrawnForm(s: State, op: OpId, w: WaiterId)
    requires w < |s.waiters| && Registered(s.pending, s.waiters, w) && HasTopic(s, w)
    ensures s.waiters[w].key.topic in s.topics && s.topics[s.waiters[w].key.topic] < |s.interests|
    ensures HasTopic(Settle(s, w, Cancelled), w)
    ensures var key := s.waiters[w].key; var i := s.topics[key.topic]; var y := Withdrawn(Settle(s, w, Cancelled), w);
            && y == s.(pending := s.pending - {key},
                       waiters := s.waiters[w := s.waiters[w].(future := if s.waiters[w].future.Pending? then Cancelled
                                                                         else s.waiters[w].future)],
                       interests := s.interests[i := s.interests[i].(refcount := s.interests[i].refcount - 1)])
            && Unregister(s, op, w) == Suspend(y, op, i) && s.waiters[w].key in s.pending && s.pending[s.waiters[w].key] == w
  {
    hide Suspend;
    assert s.waiters[w := s.waiters[w]] == s.waiters;
  }

  lemma SuspendLeaves(y: State, op: OpId, i: InterestId, topic: string)
    requires i < |y.interests| && y.interests[i].topic == topic && topic in y.topics && y.topics[topic] == i
    requires y.interests[i].refcount >= 0 && op !in y.unregistering
    ensures var z := Suspend(y, op, i);
            && LeftToDo(y, z, op, topic, y.interests[i].refcount, y.interests[i].ready)
            && z == y.(topics := z.topics, free := z.free, unregistering := z.unregistering)
  {
    assert y.unregistering - {op} == y.unregistering;
  }

  lemma LeftSame(s: State, y: State, z: State, op: OpId, topic: string)
    requires y == s.(pending := y.pending, waiters := y.waiters, interests := y.interests)
    requires topic in s.topics && s.topics[topic] < |s.interests| == |y.interests|
    ensures forall left, ready :: LeftToDo(y, z, op, topic, left, ready) == LeftToDo(s, z, op, topic, left, ready)
    ensures z == y.(topics := z.topics, free := z.free, unregistering := z.unregistering) ==>
              z.tasks == s.tasks && SameConnection(s, z) && SameClaims(s, z)
  {
  }

  lemma HasTopicSound(s: State, w: WaiterId)
    requires Sound(s) && w < |s.waiters| && s.waiters[w].key in s.pending && s.pending[s.waiters[w].key] == w
    ensures Registered(s.pending, s.waiters, w) && HasTopic(s, w)
  {
    hide SoundButPermits;
    assert Registered(s.pending, s.waiters, w);
    HasTopicIfRegistered(s, w);
  }

  /** The first close of a registered waiter marks it closed and unregisters it. */
  lemma CloseExactly(s: State, op: OpId, w: WaiterId)
    requires Sound(s) && w < |s.waiters| && s.waiters[w].key in s.pending && s.pending[s.waiters[w].key] == w
    requires !s.waiters[w].closed
    ensures var y := s.(waiters := s.waiters[w := s.waiters[w].(closed := true)]);
            && Registered(s.pending, s.waiters, w) && HasTopic(s, w) && HasTopic(y, w)
            && Close(s, op, w) == Unregister(y, op, w)
  {
    hide Sound, Unregister;
    HasTopicSound(s, w);
  }

  /** A new connection: every registered waiter may be claimed again, and every topic is to be made ready again. */
  lemma BindExactly(s: State)
    requires Sound(s)
    ensures var z := Bind(s);
            && z == s.(bound := true, generation := s.generation + 1, waiters := z.waiters, interests := z.interests)
            && |z.waiters| == |s.waiters| && |z.interests| == |s.interests|
            && (forall key :: key in s.pending ==>
                  s.pending[key] < |s.waiters| && z.waiters[s.pending[key]] == s.waiters[s.pending[key]].(claimed := false))
            && (forall w :: 0 <= w < |s.waiters| && (forall key :: key in s.pending ==> s.pending[key] != w) ==>
                  z.waiters[w] == s.waiters[w])
            && (forall t :: t in s.topics ==>
                  s.topics[t] < |s.interests| && z.interests[s.topics[t]] == s.interests[s.topics[t]].(ready := None))
            && (forall i :: 0 <= i < |s.interests| && (forall t :: t in s.topics ==> s.topics[t] != i) ==>
                  z.interests[i] == s.interests[i])
  {
    hide Sound;
    KeysKnown(s);
    ReadinessParts(s);
  }

  /** Shutdown: nothing is registered any more, every waiter that was fails unless it has its outcome, and its permit is back. */
  lemma CancelExactly(s: State)
    requires Sound(s)
    ensures var z := CancelPending(s);
            && z == s.(pending := map[], topics := map[], bound := false, generation := s.generation + 1,
                       free := s.free + |s.pending|, waiters := z.waiters)
            && |z.waiters| == |s.waiters|
            && (forall key :: key in s.pending ==>
                  var w := s.pending[key];
                  && w < |s.waiters|
                  && z.waiters[w] == s.waiters[w].(future := if s.waiters[w].future.Pending? then Failed else s.waiters[w].future))
            && (forall w :: 0 <= w < |s.waiters| && (forall key :: key in s.pending ==> s.pending[key] != w) ==>
                  z.waiters[w] == s.waiters[w])
  {
    hide Sound;
    KeysKnown(s);
  }

  /** A message is claimed if and only if it carries the key of a registered waiter that is neither claimed nor settled. */
  lemma ClaimExactly(s: State, m: Message)
    requires Sound(s)
    ensures var free := m.correlation.Some? && Key(m.topic, m.correlation.value) in s.pending &&
                        var w := s.pending[Key(m.topic, m.correlation.value)];
                        w < |s.waiters| && !s.waiters[w].claimed && s.waiters[w].future.Pending?;
            && (Claimable(s, m) <==> free)
            && (!free ==> MakeClaim(s, m) == s)
            && (free ==>
                  var key := Key(m.topic, m.correlation.value); var w := s.pending[key];
                  MakeClaim(s, m) == s.(waiters := s.waiters[w := s.waiters[w].(claimed := true)],
                                        claims := s.claims + [Claim(w, key, m, s.generation)]))
  {
    hide Sound;
  }

  /** A claim delivered gives its waiter the message, and changes no more than that. */
  lemma DeliverExactly(s: State, c: ClaimId)
    requires Sound(s) && c < |s.claims|
    ensures var claim := s.claims[c]; var w := claim.waiter;
            && w < |s.waiters|
            && Complete(s, c) ==
               s.(delivered := s.delivered + {c},
                  waiters := if s.generation == claim.generation && claim.key in s.pending && s.pending[claim.key] == w &&
                                s.waiters[w].future.Pending?
                             then s.waiters[w := s.waiters[w].(future := Result(claim.message))] else s.waiters)
  {
    ClaimReachesExactly(s, c);
    hide Sound;
  }

  /** In every run a result has the topic and the correlation data its waiter asked for. */
  lemma ResultsAnswer(max: nat, steps: seq<Step>, end: State, w: WaiterId)
    requires max > 0 && Runs(Initial(max), steps, end) && w < |end.waiters| && end.waiters[w].future.Result?
    ensures var m := end.waiters[w].future.message;
            m.topic == end.waiters[w].key.topic && m.correlation == Some(end.waiters[w].key.correlation)
  {
    RoutingIsExclusive(max, steps, end);
    hide Runs, ClaimsExclusive;
  }

  /** With the guard, a readiness task is over at once if the observer is there or an application has subscribed. */
  lemma StartExactly(s: State, k: TaskId, isLocal: bool)
    requires k < |s.tasks|
    ensures var task := s.tasks[k]; var there := Observer(task.topic, task.generation) in s.observers;
            StartTask(s, k, isLocal) ==
            s.(tasks := s.tasks[k := task.(phase := if there || isLocal then Succeeded else Subscribing)],
               observers := s.observers + {Observer(task.topic, task.generation)})
  {
    var task := s.tasks[k];
    assert Observer(task.topic, task.generation) in s.observers ==> s.observers + {Observer(task.topic, task.generation)} == s.observers;
  }

  /** The answer to its SUBSCRIBE decides whether the observer stays. */
  lemma EndExactly(s: State, k: TaskId, ok: bool)
    requires Sound(s) && k < |s.tasks| && s.tasks[k].phase.Subscribing?
    ensures var task := s.tasks[k];
            EndTask(s, k, ok) ==
            s.(tasks := s.tasks[k := task.(phase := if ok then Succeeded else Aborted)],
               observers := if ok then s.observers else s.observers - {Observer(task.topic, task.generation)})
  {
    hide Sound;
  }

  /** A removal with the guard takes out the one observer of its topic and connection. */
  lemma RemovalExactly(s: State, op: OpId)
    requires op in s.unregistering && s.unregistering[op].AwaitRemoval?
    ensures var r := s.unregistering[op].removal;
            ActRemoval(s, op) == s.(observers := s.observers - {Observer(r.topic, r.generation)},
                                    unregistering := s.unregistering[op := AwaitRemoval(r.(acted := true))])
  {
  }
}
