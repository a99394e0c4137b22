/** Which filters the broker holds, against what subscriptions and response observers need. */
module Ownership {
  import opened Util
  import G = Guards
  import S = Subscriptions
  import opened Topics

  type TaskId = G.TaskId

  /** A SUBSCRIBE or an UNSUBSCRIBE as the broker sees it, every filter granted. */
  datatype Wire = Grant(filters: set<string>) | Revoke(filters: set<string>)

  predicate Effect(w: Wire, f: string, held: bool) {
    if f !in w.filters then held else w.Grant?
  }

  /** A task suspended in `_send_subscribe` or `_send_unsubscribe`, and the packet it sends after this one, if any. */
  datatype Progress = Progress(awaiting: Wire, applied: bool, later: Option<Wire>)

  datatype Request =
    | Subscribe(filters: seq<string>)
    | Unsubscribe(filters: seq<string>)
    | AddObserver(topic: string)
    | RemoveObserver(topic: string)

  function Guarded(r: Request): seq<string> {
    match r
    case Subscribe(filters) => filters
    case Unsubscribe(filters) => filters
    case AddObserver(topic) => [topic]
    case RemoveObserver(topic) => [topic]
  }

  /** Local entries, response observers, the broker's filters, and the operations under way. */
  datatype State = State(entries: set<string>, observers: set<string>, broker: set<string>, tasks: map<TaskId, Progress>)

  predicate Needed(s: State, f: string) { f in s.entries || f in s.observers }

  function Elements(filters: seq<string>): set<string> { set f | f in filters }

  // The stretch of each operation up to its first await: what becomes of the local state, and what is sent.

  function Local(s: State, r: Request): State {
    match r
    case Subscribe(filters) => s.(entries := s.entries + Elements(filters))
    case Unsubscribe(filters) => s.(entries := s.entries - Elements(filters))
    case AddObserver(topic) => s.(observers := s.observers + {topic})
    case RemoveObserver(topic) => s.(observers := s.observers - {topic})
  }

  function Sent(s: State, r: Request): Option<Progress> {
    match r
    case Subscribe(filters) => Some(Progress(Grant(Elements(filters)), false, None))
    case Unsubscribe(filters) =>
      var observed := Elements(filters) * s.observers;
      var free := Elements(filters) - s.observers;
      if free != {} then Some(Progress(Revoke(free), false, if observed != {} then Some(Grant(observed)) else None))
      else if observed != {} then Some(Progress(Grant(observed), false, None))
      else None
    case AddObserver(topic) =>
      if topic in s.observers || topic in s.entries then None else Some(Progress(Grant({topic}), false, None))
    case RemoveObserver(topic) =>
      if topic !in s.observers || topic in s.entries then None else Some(Progress(Revoke({topic}), false, None))
  }

  function Begin(s: State, t: TaskId, r: Request): State {
    var p := Sent(s, r);
    if p.Some? then Local(s, r).(tasks := s.tasks[t := p.value]) else Local(s, r)
  }

  /** The broker processes the packet task `t` waits for. */
  function Process(s: State, t: TaskId): State
    requires t in s.tasks
  {
    var p := s.tasks[t];
    s.(broker := if p.awaiting.Grant? then s.broker + p.awaiting.filters else s.broker - p.awaiting.filters,
       tasks := s.tasks[t := p.(applied := true)])
  }

  /** The acknowledgement resumes task `t`: it sends its next packet or is done. */
  function Resume(s: State, t: TaskId): State
    requires t in s.tasks
  {
    match s.tasks[t].later
    case Some(w) => s.(tasks := s.tasks[t := Progress(w, false, None)])
    case None => s.(tasks := s.tasks - {t})
  }

  // The whole system: the guards and the operations inside them.

  datatype System = System(guards: G.View, state: State)

  datatype Step =
    | Guard(step: G.Step)
    | BeginOp(task: TaskId, request: Request)
    | ProcessOp(task: TaskId)
    | ResumeOp(task: TaskId)

  predicate InBody(v: G.View, t: TaskId) { t in v.holds && v.holds[t].acquired == |v.holds[t].filters| }

  predicate Enabled(y: System, e: Step) {
    match e
    case Guard(step) => G.Enabled(y.guards, step) && (step.Exit? ==> step.task !in y.state.tasks)
    case BeginOp(t, r) =>
      InBody(y.guards, t) && t !in y.state.tasks && y.guards.holds[t].filters == G.SortedDistinct(Guarded(r))
    case ProcessOp(t) => t in y.state.tasks && !y.state.tasks[t].applied
    case ResumeOp(t) => t in y.state.tasks && y.state.tasks[t].applied
  }

  function Apply(y: System, e: Step): System
    requires Enabled(y, e)
  {
    match e
    case Guard(step) => y.(guards := G.Apply(y.guards, step))
    case BeginOp(t, r) => y.(state := Begin(y.state, t, r))
    case ProcessOp(t) => y.(state := Process(y.state, t))
    case ResumeOp(t) => y.(state := Resume(y.state, t))
  }

  /** Whether the broker holds `f` once the packets of `p` still to come have been processed. */
  predicate Eventually(p: Progress, f: string, held: bool) {
    var first := if p.applied then held else Effect(p.awaiting, f, held);
    match p.later
    case Some(w) => Effect(w, f, first)
    case None => first
  }

  ghost predicate Covers(v: G.View, t: TaskId, p: Progress) {
    && InBody(v, t)
    && (forall f :: f in p.awaiting.filters ==> f in v.holds[t].filters)
    && (p.later.Some? ==> forall f :: f in p.later.value.filters ==> f in v.holds[t].filters)
  }

  ghost predicate Guards(y: System, t: TaskId, f: string) {
    t in y.state.tasks && t in y.guards.holds && f in y.guards.holds[t].filters
  }

  ghost predicate Agreement(y: System) {
    && (forall t :: t in y.state.tasks ==> Covers(y.guards, t, y.state.tasks[t]))
    && (forall t, f :: Guards(y, t, f) ==> (Eventually(y.state.tasks[t], f, f in y.state.broker) <==> Needed(y.state, f)))
    && (forall f :: (forall t :: !Guards(y, t, f)) ==> (f in y.state.broker <==> Needed(y.state, f)))
  }

  /** Tasks under way never share a filter. */
  lemma OneGuard(y: System, t: TaskId, u: TaskId, f: string)
    requires G.Sound(y.guards) && InBody(y.guards, t) && InBody(y.guards, u)
    requires f in y.guards.holds[t].filters && f in y.guards.holds[u].filters
    ensures t == u
  {
    var h, k := y.guards.holds[t], y.guards.holds[u];
    assert h.filters[..h.acquired] == h.filters && k.filters[..k.acquired] == k.filters;
    G.MutualExclusion(y.guards, t, u, f);
  }

  // Effects of the first stretch, filter by filter.

  lemma LocalElsewhere(s: State, r: Request, f: string)
    requires f !in Guarded(r)
    ensures Needed(Local(s, r), f) == Needed(s, f)
  {
  }

  lemma BeginAgrees(s: State, r: Request, f: string)
    requires f in Guarded(r) && (f in s.broker <==> Needed(s, f))
    ensures match Sent(s, r)
            case Some(p) => Eventually(p, f, f in s.broker) <==> Needed(Local(s, r), f)
            case None => f in s.broker <==> Needed(Local(s, r), f)
  {
    if r.Unsubscribe? {
      var all := Elements(r.filters);
      assert f in all * s.observers || f in all - s.observers;
    }
  }

  lemma SentCovered(s: State, r: Request, f: string)
    requires Sent(s, r).Some?
    ensures var p := Sent(s, r).value;
            && (f in p.awaiting.filters ==> f in Guarded(r))
            && (p.later.Some? && f in p.later.value.filters ==> f in Guarded(r))
  {
  }

  lemma Unguarded(y: System, t: TaskId, f: string)
    requires G.Sound(y.guards) && Agreement(y) && InBody(y.guards, t) && f in y.guards.holds[t].filters
    ensures forall u :: Guards(y, u, f) ==> u == t
  {
    forall u | Guards(y, u, f)
      ensures u == t
    {
      assert Covers(y.guards, u, y.state.tasks[u]);
      OneGuard(y, t, u, f);
    }
  }

  lemma BeginKeeps(y: System, t: TaskId, r: Request)
    requires G.Sound(y.guards) && Agreement(y) && Enabled(y, BeginOp(t, r))
    ensures Agreement(Apply(y, BeginOp(t, r)))
  {
    var z := Apply(y, BeginOp(t, r));
    G.SortedDistinctIsRight(Guarded(r));
    var own := y.guards.holds[t].filters;
    hide Needed, Local, Sent, Eventually, Effect, G.Sound, G.SortedDistinct, Guarded;
    if Sent(y.state, r).Some? {
      forall f: string
        ensures f in Sent(y.state, r).value.awaiting.filters ==> f in own
        ensures Sent(y.state, r).value.later.Some? && f in Sent(y.state, r).value.later.value.filters ==> f in own
      {
        SentCovered(y.state, r, f);
      }
    }
    LocalKeeps(y.state, r);
    forall f: string
      ensures f in own ==> forall u :: !Guards(y, u, f)
      ensures f in own && Sent(y.state, r).Some? ==>
                (Eventually(Sent(y.state, r).value, f, f in y.state.broker) <==> Needed(z.state, f))
      ensures f in own && Sent(y.state, r).None? ==> (f in y.state.broker <==> Needed(z.state, f))
      ensures f !in own ==> Needed(z.state, f) == Needed(y.state, f)
    {
      if f in own {
        Unguarded(y, t, f);
        BeginAgrees(y.state, r, f);
      } else {
        LocalElsewhere(y.state, r, f);
      }
      NeededIs(Local(y.state, r), z.state, f);
    }
    assert forall u, f :: u != t ==> (Guards(z, u, f) <==> Guards(y, u, f));
    assert forall f :: Guards(z, t, f) <==> Sent(y.state, r).Some? && f in own;
  }

  lemma LocalKeeps(s: State, r: Request)
    ensures Local(s, r).broker == s.broker && Local(s, r).tasks == s.tasks
  {
  }

  lemma NeededIs(s: State, z: State, f: string)
    requires s.entries == z.entries && s.observers == z.observers
    ensures Needed(s, f) == Needed(z, f)
  {
  }

  lemma ProcessKeeps(y: System, t: TaskId)
    requires G.Sound(y.guards) && Agreement(y) && Enabled(y, ProcessOp(t))
    ensures Agreement(Apply(y, ProcessOp(t)))
  {
    var z := Apply(y, ProcessOp(t));
    hide G.Sound;
    var p := y.state.tasks[t];
    forall f: string
      ensures Needed(z.state, f) == Needed(y.state, f)
      ensures f !in p.awaiting.filters ==> (f in z.state.broker <==> f in y.state.broker)
      ensures Eventually(z.state.tasks[t], f, f in z.state.broker) == Eventually(p, f, f in y.state.broker)
    {
    }
    assert Covers(y.guards, t, p);
    assert forall u, f :: Guards(z, u, f) <==> Guards(y, u, f);
    forall u, f | Guards(z, u, f) && u != t
      ensures f !in p.awaiting.filters
    {
      assert Covers(y.guards, u, y.state.tasks[u]);
      if f in p.awaiting.filters {
        OneGuard(y, t, u, f);
      }
    }
    assert forall f :: f in p.awaiting.filters ==> Guards(y, t, f);
    assert forall f :: f in p.awaiting.filters ==> Guards(z, t, f);
    hide Needed, Eventually, Effect;
  }

  lemma ResumeKeeps(y: System, t: TaskId)
    requires G.Sound(y.guards) && Agreement(y) && Enabled(y, ResumeOp(t))
    ensures Agreement(Apply(y, ResumeOp(t)))
  {
    var z := Apply(y, ResumeOp(t));
    hide G.Sound;
    var p := y.state.tasks[t];
    assert Covers(y.guards, t, p);
    forall f: string
      ensures Needed(z.state, f) == Needed(y.state, f)
      ensures t in z.state.tasks ==> Eventually(z.state.tasks[t], f, f in y.state.broker) == Eventually(p, f, f in y.state.broker)
      ensures t !in z.state.tasks ==> Eventually(p, f, f in y.state.broker) == (f in y.state.broker)
    {
    }
    assert z.state.broker == y.state.broker;
    assert forall u, f :: u != t ==> (Guards(z, u, f) <==> Guards(y, u, f));
    forall f | Guards(y, t, f)
      ensures forall u :: Guards(y, u, f) ==> u == t
    {
      Unguarded(y, t, f);
    }
    hide Needed, Eventually, Effect;
  }

  lemma GuardKeeps(y: System, step: G.Step)
    requires G.Sound(y.guards) && Agreement(y) && Enabled(y, Guard(step))
    ensures Agreement(Apply(y, Guard(step)))
  {
    var z := Apply(y, Guard(step));
    forall u | u in y.state.tasks
      ensures u in z.guards.holds && z.guards.holds[u] == y.guards.holds[u]
    {
      assert Covers(y.guards, u, y.state.tasks[u]);
    }
    hide G.Apply, G.Sound, Needed, Eventually, Effect;
    assert forall u, f :: Guards(z, u, f) <==> Guards(y, u, f);
    assert forall u :: u in z.state.tasks ==> Covers(y.guards, u, y.state.tasks[u]);
  }

  lemma StepKeeps(y: System, e: Step)
    requires G.Sound(y.guards) && Agreement(y) && Enabled(y, e)
    ensures Agreement(Apply(y, e)) && G.Sound(Apply(y, e).guards)
  {
    hide Agreement, G.Sound;
    match e
    case Guard(step) =>
      GuardKeeps(y, step);
      G.StepKeepsSound(y.guards, step);
    case BeginOp(t, r) => BeginKeeps(y, t, r);
    case ProcessOp(t) => ProcessKeeps(y, t);
    case ResumeOp(t) => ResumeKeeps(y, t);
  }

  ghost predicate Runs(y: System, steps: seq<Step>, end: System)
    decreases |steps|
  {
    if steps == [] then y == end else Enabled(y, steps[0]) && Runs(Apply(y, steps[0]), steps[1..], end)
  }

  lemma {:induction false} RunsKeepAgreement(y: System, steps: seq<Step>, end: System)
    requires G.Sound(y.guards) && Agreement(y) && Runs(y, steps, end)
    ensures G.Sound(end.guards) && Agreement(end)
    decreases |steps|
  {
    hide Agreement, G.Sound, Enabled, Apply;
    if steps != [] {
      StepKeeps(y, steps[0]);
      RunsKeepAgreement(Apply(y, steps[0]), steps[1..], end);
    }
  }

  lemma GuardedIsTaken(y: System, t: TaskId, f: string)
    requires G.Sound(y.guards) && Agreement(y) && Guards(y, t, f)
    ensures f in y.guards.locks && y.guards.locks[f].holder == Some(t)
  {
    assert Covers(y.guards, t, y.state.tasks[t]);
    var h := y.guards.holds[t];
    assert h.filters[..h.acquired] == h.filters;
    assert G.Holds(h, f);
  }

  ghost predicate Free(v: G.View, f: string) { f in v.locks ==> v.locks[f].holder == None }

  /**
   * Over every interleaving of subscribe, unsubscribe and the two observer operations: whenever the guard of `f` is
   * free, the broker holds `f` exactly when a local entry or a response observer needs it.
   */
  lemma BrokerHoldsWhatIsNeeded(steps: seq<Step>, end: System, f: string)
    requires Runs(System(G.View(map[], map[]), State({}, {}, {}, map[])), steps, end)
    requires Free(end.guards, f)
    ensures f in end.state.broker <==> f in end.state.entries || f in end.state.observers
  {
    var start := System(G.View(map[], map[]), State({}, {}, {}, map[]));
    RunsKeepAgreement(start, steps, end);
    forall t: TaskId
      ensures !Guards(end, t, f)
    {
      if Guards(end, t, f) {
        GuardedIsTaken(end, t, f);
      }
    }
  }

  // The operations as methods over the subscription index, each up to its first await.

  lemma ElementsGrow(filters: seq<string>, i: nat)
    requires i < |filters|
    ensures Elements(filters[..i + 1]) == Elements(filters[..i]) + {filters[i]}
  {
    assert filters[..i + 1] == filters[..i] + [filters[i]];
  }

  class Connection {
    const subscriptions: S.SubscriptionIndex
    var tasks: map<TaskId, Progress>
    ghost var broker: set<string>

    ghost function Now(): State
      reads `tasks, `broker, subscriptions`entries, subscriptions`responseObservers
    {
      State(subscriptions.entries.Keys, subscriptions.responseObservers, broker, tasks)
    }

    constructor ()
      ensures subscriptions.Valid() && fresh(subscriptions) && fresh(subscriptions.nodes.Values)
      ensures Now() == State({}, {}, {}, map[])
    {
      subscriptions := new S.SubscriptionIndex();
      tasks, broker := map[], {};
      new;
      assert subscriptions.entries.Keys == {};
    }

    /**
     * Entries are made for the filters that have none, with the broker's decorations stripped; a filter subscribed
     * already is only sent again. A filter repeated in the list would replace its entry with an equal one.
     */
    method Subscribe(t: TaskId, filters: seq<string>, autoAck: bool, identifier: Option<int>, strippedPrefixes: seq<string>)
      requires subscriptions.Valid()
      modifies `tasks, subscriptions, subscriptions.nodes.Values
      ensures subscriptions.Valid() && fresh(subscriptions.nodes.Values - old(subscriptions.nodes.Values))
      ensures Now() == Begin(old(Now()), t, Request.Subscribe(filters))
      ensures subscriptions.entries.Keys == old(subscriptions.entries.Keys) + (set f | f in filters)
      ensures subscriptions.responseObservers == old(subscriptions.responseObservers)
      ensures forall f :: f in old(subscriptions.entries) ==> subscriptions.entries[f] == old(subscriptions.entries)[f]
      ensures forall f :: f in filters && f !in old(subscriptions.entries) ==>
                var entry := subscriptions.entries[f];
                && fresh(entry) && entry.autoAck == autoAck && entry.subscriptionIdentifier == identifier
                && entry.actualFilter == SharedFilterToActual(f, strippedPrefixes)
      ensures tasks == old(tasks)[t := Progress(Grant(set f | f in filters), false, None)]
    {
      hide S.SubscriptionIndex.Valid, SharedFilterToActual;
      var created: seq<(string, S.SubscriptionEntry)> := [];
      for i := 0 to |filters|
        invariant subscriptions.Valid() && subscriptions.nodes == old(subscriptions.nodes) && Now() == old(Now())
        invariant subscriptions.entries == old(subscriptions.entries)
        invariant subscriptions.entries.Keys + S.FiltersOf(created) == subscriptions.entries.Keys + Elements(filters[..i])
        invariant forall f :: f in S.FiltersOf(created) ==> f !in subscriptions.entries
        invariant forall item :: item in created ==>
                    && item.0 in S.FiltersOf(created) && fresh(item.1)
                    && item.1.autoAck == autoAck && item.1.subscriptionIdentifier == identifier
                    && item.1.actualFilter == SharedFilterToActual(item.0, strippedPrefixes)
      {
        var f := filters[i];
        ElementsGrow(filters, i);
        if f !in subscriptions.entries && f !in S.FiltersOf(created) {
          var entry := new S.SubscriptionEntry(autoAck, SharedFilterToActual(f, strippedPrefixes), identifier);
          S.FiltersAppend(created, (f, entry));
          created := created + [(f, entry)];
        }
      }
      assert filters[..|filters|] == filters;
      subscriptions.AddMany(created);
      forall f | f in filters && f !in old(subscriptions.entries)
        ensures (f, subscriptions.entries[f]) in created
      {
        assert f in Elements(filters);
      }
      tasks := tasks[t := Progress(Grant(Elements(filters)), false, None)];
    }

    method Unsubscribe(t: TaskId, filters: seq<string>)
      requires subscriptions.Valid()
      modifies `tasks, subscriptions, subscriptions.nodes.Values
      ensures subscriptions.Valid() && subscriptions.nodes.Values <= old(subscriptions.nodes.Values)
      ensures Now() == Begin(old(Now()), t, Request.Unsubscribe(filters))
      ensures subscriptions.entries.Keys == old(subscriptions.entries.Keys) - (set f | f in filters)
      ensures subscriptions.responseObservers == old(subscriptions.responseObservers)
      ensures var observers := old(subscriptions.responseObservers);
              var released, observed := (set f | f in filters && f !in observers), (set f | f in filters && f in observers);
              tasks == if released != {} then
                         old(tasks)[t := Progress(Revoke(released), false, if observed != {} then Some(Grant(observed)) else None)]
                       else if observed != {} then old(tasks)[t := Progress(Grant(observed), false, None)]
                       else old(tasks)
    {
      hide S.SubscriptionIndex.Valid;
      var observed := set f | f in filters && f in subscriptions.responseObservers;
      var released := set f | f in filters && f !in observed;
      assert released == set f | f in filters && f !in subscriptions.responseObservers;
      assert observed == Elements(filters) * subscriptions.responseObservers;
      assert released == Elements(filters) - subscriptions.responseObservers;
      NoElements(filters);
      for i := 0 to |filters|
        invariant subscriptions.Valid() && subscriptions.nodes.Values <= old(subscriptions.nodes.Values)
        invariant subscriptions.entries.Keys == old(subscriptions.entries.Keys) - Elements(filters[..i])
        invariant subscriptions.responseObservers == old(subscriptions.responseObservers)
        invariant tasks == old(tasks) && broker == old(broker)
      {
        ElementsGrow(filters, i);
        var _ := subscriptions.Remove(filters[i]);
      }
      assert filters[..|filters|] == filters;
      if released != {} {
        tasks := tasks[t := Progress(Revoke(released), false, if observed != {} then Some(Grant(observed)) else None)];
      } else if observed != {} {
        tasks := tasks[t := Progress(Grant(observed), false, None)];
      }
    }

    method AddResponseObserver(t: TaskId, topic: string)
      requires subscriptions.Valid()
      modifies `tasks, subscriptions`responseObservers
      ensures subscriptions.Valid()
      ensures Now() == Begin(old(Now()), t, AddObserver(topic))
      ensures subscriptions.responseObservers == old(subscriptions.responseObservers) + {topic}
      ensures tasks == if topic in old(subscriptions.responseObservers) || topic in subscriptions.entries then old(tasks)
                       else old(tasks)[t := Progress(Grant({topic}), false, None)]
    {
      hide S.SubscriptionIndex.Valid;
      var first := subscriptions.AddResponseObserver(topic);
      if !first {
        return;
      }
      if topic in subscriptions.entries {
        return;
      }
      tasks := tasks[t := Progress(Grant({topic}), false, None)];
    }

    method RemoveResponseObserver(t: TaskId, topic: string)
      requires subscriptions.Valid()
      modifies `tasks, subscriptions`responseObservers
      ensures subscriptions.Valid()
      ensures Now() == Begin(old(Now()), t, RemoveObserver(topic))
      ensures subscriptions.responseObservers == old(subscriptions.responseObservers) - {topic}
      ensures tasks == if topic !in old(subscriptions.responseObservers) || topic in subscriptions.entries then old(tasks)
                       else old(tasks)[t := Progress(Revoke({topic}), false, None)]
    {
      hide S.SubscriptionIndex.Valid;
      var present := subscriptions.RemoveResponseObserver(topic);
      if !present {
        return;
      }
      if topic in subscriptions.entries {
        return;
      }
      tasks := tasks[t := Progress(Revoke({topic}), false, None)];
    }

    /** The acknowledgement arrives. */
    method Acknowledge(t: TaskId)
      requires t in tasks
      modifies `tasks
      ensures Now() == Resume(old(Now()), t)
      ensures tasks == if old(tasks)[t].later.Some? then old(tasks)[t := Progress(old(tasks)[t].later.value, false, None)]
                       else old(tasks) - {t}
    {
      match tasks[t].later
      case Some(w) => tasks := tasks[t := Progress(w, false, None)];
      case None => tasks := tasks - {t};
    }
  }

  lemma NoElements(filters: seq<string>)
    ensures Elements(filters[..0]) == {}
  {
  }
}
