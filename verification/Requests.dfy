/** The inbound flow together with the request dispatcher: what becomes of a claimed response. */
module Requests {
  import opened Util
  import D = Dispatcher
  import I = Inbound

  /** `claims` says which claim the recipient of a message carries. */
  datatype System = System(flow: I.State, requests: D.State, claims: map<I.Msg, D.ClaimId>)

  /** A step of the flow, or of the dispatcher on behalf of its callers; only the flow claims and delivers. */
  datatype Step = FlowStep(step: I.Step) | RequestStep(call: D.Step)

  /** The message whose recipient the step selects. */
  function Selected(flow: I.State, e: I.Step): Option<I.Msg> {
    match e
    case PublishStep(m, _) => if I.Selects(flow, m) then Some(m) else None
    case DrainStep(m, _, _) => Some(m)
    case _ => None
  }

  predicate Awaits(flow: I.State, m: I.Msg) {
    m.pid in flow.inflight && flow.inflight[m.pid].msg == m && flow.inflight[m.pid].recipient.Request?
  }

  /** The exchange a PUBREL ends, if a request is to take its message. */
  function Released(flow: I.State, e: I.Step): Option<I.Msg> {
    if e.PubRelStep? && e.pid in flow.inflight && flow.inflight[e.pid].recipient.Request?
    then Some(flow.inflight[e.pid].msg) else None
  }

  /** `select_recipient` asks the dispatcher first, and the flow hears from it whether a claim still reaches its waiter. */
  function Resolved(s: System, e: I.Step, content: I.Msg -> D.Message): I.Step {
    match e
    case PublishStep(m, _) =>
      if I.Selects(s.flow, m) && D.Claimable(s.requests, content(m)) then I.PublishStep(m, I.Take(I.Request, false)) else e
    case DrainStep(m, _, _) => if D.Claimable(s.requests, content(m)) then I.DrainStep(m, I.Request, false) else e
    case PubRelStep(pid, _) =>
      var m := Released(s.flow, e);
      if m.Some? && m.value in s.claims then I.PubRelStep(pid, !D.Reaches(s.requests, s.claims[m.value])) else e
    case _ => e
  }

  /** No request is chosen but by a claim. */
  predicate Unrequested(e: I.Step) {
    match e
    case PublishStep(_, sel) => !(sel.Take? && sel.recipient.Request?)
    case DrainStep(_, r, _) => !r.Request?
    case _ => true
  }

  predicate Enabled(s: System, e: Step, content: I.Msg -> D.Message) {
    match e
    case FlowStep(step) => Unrequested(step) && I.Enabled(s.flow, Resolved(s, step, content))
    case RequestStep(call) => D.Applicable(s.requests, call) && !call.ClaimStep? && !call.DeliverStep?
  }

  function Apply(s: System, e: Step, content: I.Msg -> D.Message): System
    requires Enabled(s, e, content)
  {
    match e
    case RequestStep(call) => s.(requests := D.Apply(s.requests, call))
    case FlowStep(step) =>
      var flow := I.Apply(s.flow, Resolved(s, step, content));
      var m, done := Selected(s.flow, step), Released(s.flow, step);
      if m.Some? && D.Claimable(s.requests, content(m.value)) then Claiming(s, flow, m.value, content)
      else if done.Some? && done.value in s.claims && s.claims[done.value] < |s.requests.claims| then
        System(flow, D.Complete(s.requests, s.claims[done.value]), s.claims)
      else s.(flow := flow)
  }

  /** A claim for `m`; at QoS 0 and 1 it is delivered at once, at QoS 2 it waits for PUBREL. */
  function Claiming(s: System, flow: I.State, m: I.Msg, content: I.Msg -> D.Message): System
    requires D.Claimable(s.requests, content(m))
  {
    var c := |s.requests.claims|;
    var claimed := D.MakeClaim(s.requests, content(m));
    System(flow, if m.qos < 2 then D.Complete(claimed, c) else claimed, s.claims[m := c])
  }

  // What always holds.

  /** Messages that wait for PUBREL on behalf of a request have not been delivered. */
  ghost predicate Undelivered(inflight: map<int, I.Flight>) {
    forall pid :: pid in inflight && inflight[pid].recipient.Request? ==> !inflight[pid].delivered
  }

  ghost predicate Handed(s: System, m: I.Msg) { I.Handed(m) in s.flow.trace }

  ghost predicate Stale(s: System, m: I.Msg) { I.Stale(m) in s.flow.trace }

  predicate Claimed(s: System, m: I.Msg) { m in s.claims && s.claims[m] < |s.requests.claims| }

  predicate Answered(s: System, w: D.WaiterId) { w < |s.requests.waiters| && s.requests.waiters[w].future.Result? }

  function WaiterOf(s: System, m: I.Msg): D.WaiterId
    requires Claimed(s, m)
  {
    s.requests.claims[s.claims[m]].waiter
  }

  /** A message handed on is the result of the waiter it was claimed for. */
  ghost predicate HandedArrived(s: System, content: I.Msg -> D.Message) {
    forall m :: Handed(s, m) ==>
      Claimed(s, m) && Answered(s, WaiterOf(s, m)) && s.requests.waiters[WaiterOf(s, m)].future.message == content(m)
  }

  /** Two messages handed on went to two waiters. */
  ghost predicate HandedApart(s: System) {
    forall m, n :: Handed(s, m) && Handed(s, n) && Claimed(s, m) && Claimed(s, n) && m != n ==> WaiterOf(s, m) != WaiterOf(s, n)
  }

  /** Whoever has a result got it from a message handed on. */
  ghost predicate ResultsHanded(s: System) {
    forall w :: Answered(s, w) ==> exists m :: Handed(s, m) && Claimed(s, m) && WaiterOf(s, m) == w
  }

  ghost predicate ClaimsKnown(s: System, content: I.Msg -> D.Message) {
    && (forall m :: m in s.claims ==> s.claims[m] < |s.requests.claims| && s.requests.claims[s.claims[m]].message == content(m))
    && (forall m :: Awaits(s.flow, m) || Stale(s, m) ==> m in s.claims)
    && Undelivered(s.flow.inflight)
  }

  /** A claimed message awaits PUBREL, was handed on, or found its claim stale: exactly one of these. */
  ghost predicate Fate(s: System, m: I.Msg) {
    && (Awaits(s.flow, m) || Handed(s, m) || Stale(s, m))
    && !(Awaits(s.flow, m) && Handed(s, m)) && !(Awaits(s.flow, m) && Stale(s, m)) && !(Handed(s, m) && Stale(s, m))
  }

  ghost predicate Fates(s: System) { forall m :: m in s.claims ==> Fate(s, m) }

  ghost predicate Linked(s: System, content: I.Msg -> D.Message) {
    && I.Sound(s.flow) && I.QuotaKept(s.flow) && D.Sound(s.requests)
    && ClaimsKnown(s, content) && HandedArrived(s, content) && HandedApart(s) && ResultsHanded(s) && Fates(s)
  }

  // What a step of the flow does to requests.

  /** The step may hand `m` on, find its claim stale, or start or end its wait for PUBREL; it concerns no other message. */
  ghost predicate Effect(s: I.State, z: I.State, m: I.Msg, handed: bool, stale: bool, awaits: bool) {
    && (forall n :: I.Handed(n) in z.trace <==> I.Handed(n) in s.trace || (n == m && handed))
    && (forall n :: I.Stale(n) in z.trace <==> I.Stale(n) in s.trace || (n == m && stale))
    && (forall n :: n != m ==> Awaits(z, n) == Awaits(s, n)) && (Awaits(z, m) <==> awaits)
  }

  lemma EffectOf(s: I.State, z: I.State, m: I.Msg, events: I.Trace)
    requires z.trace == s.trace + events && I.AllConcern(events, m)
    requires forall n :: n != m ==> Awaits(z, n) == Awaits(s, n)
    ensures Effect(s, z, m, I.Handed(m) in events, I.Stale(m) in events, Awaits(z, m))
  {
    hide Awaits;
    assert forall n :: I.Handed(n) in events ==> n == m;
    assert forall n :: I.Stale(n) in events ==> n == m;
  }

  lemma SameFlights(s: I.State, z: I.State)
    requires z.inflight == s.inflight
    ensures forall n :: Awaits(z, n) == Awaits(s, n)
    ensures Undelivered(s.inflight) ==> Undelivered(z.inflight)
  {
  }

  /** A flight recorded under a free identifier. */
  lemma FlightAdded(s: I.State, z: I.State, m: I.Msg, f: I.Flight)
    requires m.pid !in s.inflight && z.inflight == s.inflight[m.pid := f] && f.msg == m && (f.recipient.Request? ==> !f.delivered)
    ensures forall n :: n != m ==> Awaits(z, n) == Awaits(s, n)
    ensures !Awaits(s, m) && (Awaits(z, m) <==> f.recipient.Request?)
    ensures Undelivered(s.inflight) ==> Undelivered(z.inflight)
  {
  }

  lemma FlightGone(s: I.State, z: I.State, pid: int)
    requires pid in s.inflight && z.inflight == s.inflight - {pid} && s.inflight[pid].msg.pid == pid
    ensures var m := s.inflight[pid].msg; !Awaits(z, m) && forall n :: n != m ==> Awaits(z, n) == Awaits(s, n)
    ensures Undelivered(s.inflight) ==> Undelivered(z.inflight)
  {
  }

  /** `_deliver` and the two QoS paths, given a recipient; `b` differs from `s` in what requests do not look at. */
  lemma DeliverEffect(s: I.State, m: I.Msg, r: I.Recipient, detached: bool, ack: bool, reading: bool)
    ensures var z := I.Deliver(s, m, r, detached, ack, reading);
            Effect(s, z, m, r.Request?, false, Awaits(s, m)) && (Undelivered(s.inflight) ==> Undelivered(z.inflight))
  {
    var z := I.Deliver(s, m, r, detached, ack, reading);
    I.DeliverIs(s, m, r, detached, ack, reading);
    SameFlights(s, z);
    EffectOf(s, z, m, I.DeliverEvents(m, r, detached, ack, reading));
    hide I.Deliver, Awaits, Effect, Undelivered, I.AllConcern;
  }

  lemma QoS1Effect(s: I.State, m: I.Msg, r: I.Recipient, detached: bool, reading: bool)
    ensures var z := I.DeliverQoS1(s, m, r, detached, reading);
            Effect(s, z, m, r.Request?, false, Awaits(s, m)) && (Undelivered(s.inflight) ==> Undelivered(z.inflight))
  {
    var z := I.DeliverQoS1(s, m, r, detached, reading);
    DeliverEffect(s, m, r, detached, true, reading);
    I.RefusedConcerns(m);
    I.TwoConcern(m);
    I.ManualQoS1Is(s, m, reading);
    hide I.Deliver, Awaits, Effect, Undelivered, I.AllConcern;
    if !I.Auto(r) {
      assert r == I.Subscription(false);
      SameFlights(s, z);
      if detached {
        EffectOf(s, z, m, [I.Refused(m)]);
      } else {
        EffectOf(s, z, m, if reading then [I.Manual(m)] else [I.Manual(m), I.Enqueued(m)]);
      }
    }
  }

  lemma QoS2Effect(s: I.State, m: I.Msg, r: I.Recipient, detached: bool, reading: bool)
    requires m.pid !in s.inflight && (r.Request? ==> !detached)
    ensures var z := I.AcceptQoS2(s, m, r, detached, reading);
            Effect(s, z, m, false, false, r.Request?) && (Undelivered(s.inflight) ==> Undelivered(z.inflight))
  {
    var z := I.AcceptQoS2(s, m, r, detached, reading);
    I.RefusedConcerns(m);
    I.TwoConcern(m);
    I.AcceptManualIs(s, m, reading);
    var f := I.Flight(m, r, false);
    FlightAdded(s, s.(inflight := s.inflight[m.pid := f]), m, f);
    assert s.trace + [I.Accepted(m)] + [I.PubRecSent(m)] == s.trace + [I.Accepted(m), I.PubRecSent(m)];
    hide I.Deliver, Awaits, Effect, Undelivered, I.AllConcern;
    if r.Subscription? && detached {
      SameFlights(s, z);
      EffectOf(s, z, m, [I.Refused(m)]);
    } else if I.Auto(r) {
      FlightAdded(s, z, m, f);
      EffectOf(s, z, m, [I.Accepted(m), I.PubRecSent(m)]);
    } else {
      assert r == I.Subscription(false);
      SameFlights(s, z);
      EffectOf(s, z, m, if reading then [I.Accepted(m), I.Manual(m)] else [I.Accepted(m), I.Manual(m), I.Enqueued(m)]);
    }
  }

  lemma EffectFrom(s: I.State, b: I.State, z: I.State, m: I.Msg, handed: bool, stale: bool, awaits: bool)
    requires b.trace == s.trace && b.inflight == s.inflight && Effect(b, z, m, handed, stale, awaits)
    ensures Effect(s, z, m, handed, stale, awaits)
  {
    SameFlights(s, b);
    hide Awaits;
  }

  /** The step hands its message to a request. */
  predicate Asks(e: I.Step) {
    match e
    case PublishStep(_, sel) => sel.Take? && sel.recipient.Request? && !sel.detached
    case DrainStep(_, r, detached) => r.Request? && !detached
    case _ => false
  }

  lemma NewUnasked(s: I.State, m: I.Msg)
    requires I.New(s, m)
    ensures !Awaits(s, m) && I.Handed(m) !in s.trace && I.Stale(m) !in s.trace
  {
    assert I.Concerns(I.Handed(m), m) && I.Concerns(I.Stale(m), m);
    assert I.PlaceOf(s, m).flight.None?;
  }

  lemma RouteEffect(s: I.State, m: I.Msg, sel: I.Selection)
    requires !Awaits(s, m) && 0 <= m.qos <= 2 && (m.qos == 2 ==> m.pid !in s.inflight)
    requires sel.Take? && sel.recipient.Request? ==> !sel.detached
    ensures var z := I.Route(s, m, sel); var asks := sel.Take? && sel.recipient.Request?;
            Effect(s, z, m, asks && m.qos < 2, false, asks && m.qos == 2) && (Undelivered(s.inflight) ==> Undelivered(z.inflight))
  {
    var z := I.Route(s, m, sel);
    I.RouteIs(s, m, sel);
    hide Awaits, Undelivered;
    match sel
    case Hold =>
      SameFlights(s, z);
    case Overflow =>
      SameFlights(s, z);
    case Take(r, detached) =>
      hide I.Route, Effect;
      if m.qos == 0 {
        DeliverEffect(s, m, r, detached, false, true);
      } else if m.qos == 1 {
        QoS1Effect(s, m, r, detached, true);
      } else {
        QoS2Effect(s, m, r, detached, true);
      }
  }

  lemma PublishEffect(s: I.State, m: I.Msg, sel: I.Selection)
    requires I.Sound(s) && I.Enabled(s, I.PublishStep(m, sel)) && I.Selects(s, m)
    requires sel.Take? && sel.recipient.Request? ==> !sel.detached
    ensures var z := I.Publish(s, m, sel); var asks := Asks(I.PublishStep(m, sel));
            && Effect(s, z, m, asks && m.qos < 2, false, asks && m.qos == 2)
            && (Undelivered(s.inflight) ==> Undelivered(z.inflight))
            && !Awaits(s, m) && I.Handed(m) !in s.trace && I.Stale(m) !in s.trace
  {
    var t := s.(arrived := s.arrived + 1, seen := s.seen + {m});
    var q := I.HoldQuota(t, m.pid);
    var b := if m.qos == 0 then t else q;
    var asks := Asks(I.PublishStep(m, sel));
    I.EnabledPublish(s, m, sel);
    I.ArrivedKeeps(s, m);
    I.QuotaKeeps(t, m.pid, m);
    I.SelectsIs(s, m, sel);
    NewUnasked(b, m);
    SameFlights(s, b);
    hide I.Sound, I.New, I.Publish, I.Route, Effect, Awaits, Undelivered, I.Selects, I.HoldQuota, I.Enabled;
    RouteEffect(b, m, sel);
    EffectFrom(s, b, I.Publish(s, m, sel), m, asks && m.qos < 2, false, asks && m.qos == 2);
  }

  lemma DrainEffect(s: I.State, m: I.Msg, r: I.Recipient, detached: bool)
    requires I.Sound(s) && m in s.held && (r.Request? ==> !detached)
    ensures var z := I.Drain(s, m, r, detached); var asks := r.Request?;
            && Effect(s, z, m, asks && m.qos < 2, false, asks && m.qos == 2)
            && (Undelivered(s.inflight) ==> Undelivered(z.inflight))
            && !Awaits(s, m) && I.Handed(m) !in s.trace && I.Stale(m) !in s.trace
  {
    var t := s.(held := s.held - {m});
    I.UnholdKeeps(s, m);
    NewUnasked(t, m);
    SameFlights(s, t);
    hide I.Sound, I.New, I.Deliver, I.DeliverQoS1, I.AcceptQoS2, Effect, Awaits, Undelivered;
    if m.qos == 0 {
      DeliverEffect(t, m, r, detached, false, false);
    } else if m.qos == 1 {
      QoS1Effect(t, m, r, detached, false);
    } else {
      QoS2Effect(t, m, r, detached, false);
    }
    EffectFrom(s, t, I.Drain(s, m, r, detached), m, r.Request? && m.qos < 2, false, r.Request? && m.qos == 2);
  }

  /** PUBREL for a request: its message is handed on, or its claim was stale. */
  lemma ReleaseEffect(s: I.State, pid: int, gone: bool)
    requires I.Sound(s) && pid in s.inflight && s.inflight[pid].recipient.Request? && !s.inflight[pid].delivered
    ensures var m := s.inflight[pid].msg; var z := I.PubRel(s, pid, gone);
            && Effect(s, z, m, !gone, gone, false) && (Undelivered(s.inflight) ==> Undelivered(z.inflight))
            && Awaits(s, m) && I.PubCompSent(m) in z.trace && z.trace == s.trace + I.AfterComp(m, I.Request, gone)
  {
    var m := s.inflight[pid].msg;
    var z := I.PubRel(s, pid, gone);
    I.PubRelIs(s, pid, gone);
    I.FlightRemoved(s, pid);
    I.AfterCompConcern(m, I.Request, gone);
    I.AfterCompIs(m, I.Request, gone);
    hide I.Sound, I.PubRel, I.AfterComp, I.AllConcern, I.Tables, I.IdsDisjoint, I.MsgOk, I.PlaceOf;
    FlightGone(s, z, pid);
    EffectOf(s, z, m, I.AfterComp(m, I.Request, gone));
    assert I.AfterComp(m, I.Request, gone)[0] == I.PubCompSent(m);
    hide Effect, Undelivered;
  }

  /** Nothing about requests changes. */
  ghost predicate Quiet(s: I.State, z: I.State) {
    && (forall n :: I.Handed(n) in z.trace <==> I.Handed(n) in s.trace)
    && (forall n :: I.Stale(n) in z.trace <==> I.Stale(n) in s.trace)
    && (forall n :: Awaits(z, n) == Awaits(s, n))
    && (Undelivered(s.inflight) ==> Undelivered(z.inflight))
  }

  /** The step selects nobody, and ends no request's exchange. */
  predicate Plain(s: I.State, e: I.Step) { Selected(s, e).None? && Released(s, e).None? }

  lemma OtherReleaseQuiet(s: I.State, pid: int, gone: bool)
    requires I.Sound(s) && (pid in s.inflight ==> !s.inflight[pid].recipient.Request?)
    ensures Quiet(s, I.PubRel(s, pid, gone))
  {
    var z := I.PubRel(s, pid, gone);
    if pid in s.inflight {
      var m := s.inflight[pid].msg;
      I.PubRelIs(s, pid, gone);
      I.FlightRemoved(s, pid);
      I.AfterCompIs(m, s.inflight[pid].recipient, gone);
      hide I.Sound, I.PubRel, I.AfterComp, I.Tables, I.IdsDisjoint, I.MsgOk, I.PlaceOf;
      FlightGone(s, z, pid);
    }
    hide I.Sound;
  }

  lemma AppAckQuiet(s: I.State, m: I.Msg)
    requires I.Sound(s)
    ensures Quiet(s, I.AppAck(s, m))
  {
    var z := I.AppAck(s, m);
    I.AppAckIs(s, m);
    I.SoundParts(s);
    hide I.Sound, I.AppAck, I.Justified;
    if m !in s.callbacks && m.qos == 2 && m.pid in s.pendingAck && s.pendingAck[m.pid] == m {
      FlightAdded(s, z, m, I.Flight(m, I.Subscription(false), true));
      hide Awaits, Undelivered, I.Tables, I.IdsDisjoint;
    } else {
      SameFlights(s, z);
      hide Awaits, Undelivered, I.Tables, I.IdsDisjoint;
    }
  }

  lemma PlainQuiet(s: I.State, e: I.Step)
    requires I.Sound(s) && I.Enabled(s, e) && Plain(s, e)
    ensures Quiet(s, I.Apply(s, e))
  {
    var z := I.Apply(s, e);
    hide I.Sound, I.Publish, I.PubRel, I.AppAck, I.FinishPut, Awaits, Undelivered;
    match e
    case PublishStep(m, sel) =>
      I.SelectsIs(s, m, sel);
      SameFlights(s, z);
    case PubRelStep(pid, gone) => OtherReleaseQuiet(s, pid, gone);
    case FinishPutStep(detached) =>
      I.FinishIs(s, detached);
      SameFlights(s, z);
    case AppAckStep(m) => AppAckQuiet(s, m);
    case DrainStep(m, r, detached) =>
    case DrainEndStep => SameFlights(s, z);
    case ExpireStep => SameFlights(s, z);
    case ClearStep(_) => SameFlights(s, z);
  }

  // Flow and dispatcher together.

  ghost predicate ClaimsGrow(r: D.State, z: D.State) {
    |r.claims| <= |z.claims| && forall c :: 0 <= c < |r.claims| ==> z.claims[c] == r.claims[c]
  }

  predicate HasResult(r: D.State, w: D.WaiterId) { w < |r.waiters| && r.waiters[w].future.Result? }

  /** Results stay as they are, and nobody but `w`, if `answered`, gets a new one. */
  ghost predicate Settles(r: D.State, z: D.State, w: D.WaiterId, answered: bool, message: D.Message) {
    && (forall v: D.WaiterId :: HasResult(r, v) ==> HasResult(z, v) && z.waiters[v].future == r.waiters[v].future)
    && (forall v: D.WaiterId :: HasResult(z, v) ==> HasResult(r, v) || (answered && v == w))
    && (answered ==> !HasResult(r, w) && HasResult(z, w) && z.waiters[w].future.message == message)
  }

  /** What a step does to the claims on record. */
  ghost predicate Records(s: System, z: System, m: I.Msg, content: I.Msg -> D.Message) {
    && ClaimsGrow(s.requests, z.requests)
    && (z.claims == s.claims ||
        (m !in s.claims && |s.requests.claims| < |z.requests.claims| && z.claims == s.claims[m := |s.requests.claims|] &&
         z.requests.claims[|s.requests.claims|].message == content(m)))
  }

  lemma ClaimsKnownAfter(s: System, z: System, content: I.Msg -> D.Message, m: I.Msg, handed: bool, stale: bool, awaits: bool)
    requires ClaimsKnown(s, content) && Records(s, z, m, content) && Effect(s.flow, z.flow, m, handed, stale, awaits)
    requires Undelivered(z.flow.inflight) && (handed || stale || awaits ==> m in z.claims)
    ensures ClaimsKnown(z, content)
  {
    hide Undelivered, Awaits;
  }

  lemma WaitersStay(s: System, z: System, content: I.Msg -> D.Message, m: I.Msg)
    requires ClaimsKnown(s, content) && Records(s, z, m, content)
    ensures forall n :: n in s.claims ==> Claimed(s, n) && Claimed(z, n) && WaiterOf(z, n) == WaiterOf(s, n)
    ensures forall n :: n in z.claims ==> Claimed(z, n)
  {
    hide Undelivered, Awaits;
  }

  lemma HandedAfter(s: System, z: System, content: I.Msg -> D.Message, m: I.Msg, handed: bool, stale: bool, awaits: bool)
    requires ClaimsKnown(s, content) && Records(s, z, m, content) && Effect(s.flow, z.flow, m, handed, stale, awaits)
    requires HandedArrived(s, content) && HandedApart(s) && ResultsHanded(s)
    requires handed ==> Claimed(z, m) && !Handed(s, m)
    requires Settles(s.requests, z.requests, if Claimed(z, m) then WaiterOf(z, m) else 0, handed, content(m))
    ensures HandedArrived(z, content) && HandedApart(z) && ResultsHanded(z)
  {
    WaitersStay(s, z, content, m);
    assert forall n :: Handed(z, n) <==> Handed(s, n) || (n == m && handed);
    assert forall v: D.WaiterId :: HasResult(s.requests, v) <==> Answered(s, v);
    assert forall v: D.WaiterId :: HasResult(z.requests, v) <==> Answered(z, v);
    hide ClaimsKnown, Records, Effect, Handed, WaiterOf, Answered;
    forall w | Answered(z, w)
      ensures exists n :: Handed(z, n) && Claimed(z, n) && WaiterOf(z, n) == w
    {
      if Answered(s, w) {
        var n :| Handed(s, n) && Claimed(s, n) && WaiterOf(s, n) == w;
        assert Handed(z, n) && Claimed(z, n) && WaiterOf(z, n) == w;
      } else {
        assert Handed(z, m);
      }
    }
    forall n | Handed(z, n)
      ensures Claimed(z, n) && Answered(z, WaiterOf(z, n)) && z.requests.waiters[WaiterOf(z, n)].future.message == content(n)
    {
      if Handed(s, n) {
        assert Answered(s, WaiterOf(s, n));
      }
    }
  }

  lemma FatesAfter(s: System, z: System, content: I.Msg -> D.Message, m: I.Msg, handed: bool, stale: bool, awaits: bool)
    requires Fates(s) && Records(s, z, m, content) && Effect(s.flow, z.flow, m, handed, stale, awaits)
    requires m in z.claims ==> Fate(z, m)
    ensures Fates(z)
  {
    forall n | n in z.claims
      ensures Fate(z, n)
    {
      if n != m {
        assert Fate(s, n);
      }
    }
    hide Awaits, Records;
  }

  lemma LinkedAfter(s: System, z: System, content: I.Msg -> D.Message, m: I.Msg, handed: bool, stale: bool, awaits: bool)
    requires Linked(s, content) && I.Sound(z.flow) && I.QuotaKept(z.flow) && D.Sound(z.requests)
    requires Records(s, z, m, content) && Effect(s.flow, z.flow, m, handed, stale, awaits) && Undelivered(z.flow.inflight)
    requires (handed || stale || awaits ==> m in z.claims) && (m in z.claims ==> Fate(z, m)) && (handed ==> !Handed(s, m))
    requires Settles(s.requests, z.requests, if Claimed(z, m) then WaiterOf(z, m) else 0, handed, content(m))
    ensures Linked(z, content)
  {
    hide I.Sound, I.QuotaKept, D.Sound, ClaimsKnown, Records, Effect, Undelivered, Fate, Fates, HandedArrived, HandedApart,
         ResultsHanded, Settles, Handed, WaiterOf, Claimed;
    ClaimsKnownAfter(s, z, content, m, handed, stale, awaits);
    ClaimsAreClaimed(z, content);
    HandedAfter(s, z, content, m, handed, stale, awaits);
    FatesAfter(s, z, content, m, handed, stale, awaits);
  }

  lemma ClaimsAreClaimed(s: System, content: I.Msg -> D.Message)
    requires ClaimsKnown(s, content)
    ensures forall m :: m in s.claims ==> Claimed(s, m)
  {
    hide Undelivered, Awaits;
  }

  lemma LinkedParts(s: System, content: I.Msg -> D.Message)
    requires Linked(s, content)
    ensures I.Sound(s.flow) && I.QuotaKept(s.flow) && D.Sound(s.requests) && ClaimsKnown(s, content) && Fates(s)
    ensures Undelivered(s.flow.inflight)
  {
    hide I.Sound, I.QuotaKept, D.Sound, Fates, HandedArrived, HandedApart, ResultsHanded, Undelivered, Awaits;
  }

  lemma UnclaimedBefore(s: System, content: I.Msg -> D.Message, m: I.Msg)
    requires Linked(s, content) && !Awaits(s.flow, m) && !Handed(s, m) && !Stale(s, m)
    ensures m !in s.claims
  {
    hide I.Sound, I.QuotaKept, D.Sound, ClaimsKnown, HandedArrived, HandedApart, ResultsHanded, Handed, Stale, Awaits;
    assert m in s.claims ==> Fate(s, m);
  }

  lemma ClaimMade(r: D.State, message: D.Message)
    requires D.Sound(r) && D.Claimable(r, message)
    ensures var z, c := D.MakeClaim(r, message), |r.claims|;
            && D.Sound(z) && |z.claims| == c + 1 && ClaimsGrow(r, z) && z.claims[c].message == message && D.Reaches(z, c)
            && |z.waiters| == |r.waiters| && (forall w :: 0 <= w < |r.waiters| ==> z.waiters[w].future == r.waiters[w].future)
  {
    D.ClaimKeeps(r, message);
    D.FreshClaimReaches(r, message);
    D.ClaimFrame(r, message);
    assert |D.MakeClaim(r, message).claims| == |r.claims| + 1;
    hide D.Sound, D.MakeClaim, D.Claimable, D.Reaches;
  }

  /** What a claim, delivered at once or not, does to results. */
  lemma ClaimSettles(r: D.State, message: D.Message, deliver: bool)
    requires D.Sound(r) && D.Claimable(r, message)
    ensures var claimed, c := D.MakeClaim(r, message), |r.claims|;
            && |claimed.claims| == c + 1
            && var z := if deliver then D.Complete(claimed, c) else claimed;
               && D.Sound(z) && ClaimsGrow(r, z) && c < |z.claims| && z.claims[c].message == message
               && Settles(r, z, z.claims[c].waiter, deliver, message)
  {
    hide D.Sound, D.MakeClaim, D.Claimable, D.Complete, D.Reaches;
    ClaimMade(r, message);
    var claimed, c := D.MakeClaim(r, message), |r.claims|;
    D.CompleteKeeps(claimed, c);
    D.ClaimReachesExactly(claimed, c);
    CompleteClaims(claimed, c);
  }

  lemma CompleteClaims(r: D.State, c: D.ClaimId)
    requires c < |r.claims|
    ensures D.Complete(r, c).claims == r.claims
  {
  }

  /** A message just claimed is handed on at once, or begins to wait for PUBREL. */
  lemma ClaimedFate(s: System, z: System, m: I.Msg)
    requires Effect(s.flow, z.flow, m, m.qos < 2, false, m.qos == 2) && 0 <= m.qos <= 2
    requires !Awaits(s.flow, m) && !Handed(s, m) && !Stale(s, m)
    ensures Fate(z, m)
  {
    hide Awaits;
  }

  lemma ClaimingIs(s: System, flow: I.State, m: I.Msg, content: I.Msg -> D.Message)
    requires D.Sound(s.requests) && D.Claimable(s.requests, content(m)) && m !in s.claims
    ensures var z := Claiming(s, flow, m, content);
            && z.flow == flow && m in z.claims && Claimed(z, m) && D.Sound(z.requests) && Records(s, z, m, content)
            && Settles(s.requests, z.requests, WaiterOf(z, m), m.qos < 2, content(m))
  {
    hide D.Sound, Settles, ClaimsGrow, D.Claimable, D.MakeClaim, D.Complete;
    ClaimSettles(s.requests, content(m), m.qos < 2);
  }

  lemma ClaimingKeeps(s: System, flow: I.State, m: I.Msg, content: I.Msg -> D.Message)
    requires Linked(s, content) && D.Claimable(s.requests, content(m)) && I.Sound(flow) && I.QuotaKept(flow)
    requires Effect(s.flow, flow, m, m.qos < 2, false, m.qos == 2) && Undelivered(flow.inflight) && 0 <= m.qos <= 2
    requires !Awaits(s.flow, m) && !Handed(s, m) && !Stale(s, m)
    ensures Linked(Claiming(s, flow, m, content), content)
  {
    hide *;
    var z := Claiming(s, flow, m, content);
    UnclaimedBefore(s, content, m);
    LinkedParts(s, content);
    ClaimingIs(s, flow, m, content);
    ClaimedFate(s, z, m);
    LinkedAfter(s, z, content, m, m.qos < 2, false, m.qos == 2);
  }

  /** Delivering a claim for `m`: its waiter gets a result exactly when the guard of `complete` holds. */
  lemma ReleaseSettles(r: D.State, c: D.ClaimId)
    requires D.Sound(r) && c < |r.claims|
    ensures var z := D.Complete(r, c);
            D.Sound(z) && z.claims == r.claims && Settles(r, z, r.claims[c].waiter, D.Reaches(r, c), r.claims[c].message)
  {
    hide D.Sound, D.Complete, D.Reaches;
    D.CompleteKeeps(r, c);
    D.ClaimReachesExactly(r, c);
    CompleteClaims(r, c);
  }

  lemma ClaimFacts(s: System, m: I.Msg, content: I.Msg -> D.Message)
    requires ClaimsKnown(s, content) && Fates(s) && m in s.claims
    ensures s.claims[m] < |s.requests.claims| && s.requests.claims[s.claims[m]].message == content(m) && Fate(s, m)
  {
    hide Undelivered, Awaits, Fate;
  }

  /** The wait for PUBREL ends in one of the two ways. */
  lemma ReleasedFate(s: System, z: System, m: I.Msg, live: bool)
    requires Fate(s, m) && Awaits(s.flow, m) && Effect(s.flow, z.flow, m, live, !live, false)
    ensures Fate(z, m) && !Handed(s, m)
  {
    hide Awaits;
  }

  lemma ReleasingKeeps(s: System, flow: I.State, m: I.Msg, content: I.Msg -> D.Message)
    requires Linked(s, content) && Claimed(s, m) && m in s.claims && I.Sound(flow) && I.QuotaKept(flow) && Awaits(s.flow, m)
    requires var live := D.Reaches(s.requests, s.claims[m]); Effect(s.flow, flow, m, live, !live, false)
    requires Undelivered(flow.inflight)
    ensures Linked(System(flow, D.Complete(s.requests, s.claims[m]), s.claims), content)
  {
    hide I.Sound, I.QuotaKept, D.Sound, Linked, ClaimsKnown, Fates, Fate, Effect, Settles, Undelivered, Awaits, Handed,
         D.Reaches, D.Complete;
    var c := s.claims[m];
    var live := D.Reaches(s.requests, c);
    var z := System(flow, D.Complete(s.requests, c), s.claims);
    LinkedParts(s, content);
    ReleaseSettles(s.requests, c);
    ClaimFacts(s, m, content);
    ReleasedFate(s, z, m, live);
    LinkedAfter(s, z, content, m, live, !live, false);
  }

  lemma FlowQuietKeeps(s: System, flow: I.State, content: I.Msg -> D.Message)
    requires Linked(s, content) && I.Sound(flow) && I.QuotaKept(flow) && Quiet(s.flow, flow)
    ensures Linked(s.(flow := flow), content)
  {
    hide *;
    var m := I.Msg(0, 0, 0);
    LinkedParts(s, content);
    QuietMeans(s, flow, content, m);
    AwaitsClaimed(s, content, m);
    LinkedAfter(s, s.(flow := flow), content, m, false, false, Awaits(s.flow, m));
  }

  /** Seen from any one message, a quiet step has no effect. */
  lemma QuietMeans(s: System, flow: I.State, content: I.Msg -> D.Message, m: I.Msg)
    requires Fates(s) && Undelivered(s.flow.inflight) && Quiet(s.flow, flow)
    ensures var z := s.(flow := flow); var w := if Claimed(z, m) then WaiterOf(z, m) else 0;
            && Records(s, z, m, content) && Effect(s.flow, flow, m, false, false, Awaits(s.flow, m)) && Undelivered(flow.inflight)
            && (m in s.claims ==> Fate(z, m)) && Settles(s.requests, s.requests, w, false, content(m))
  {
    assert m in s.claims ==> Fate(s, m);
    hide Undelivered, Awaits, Fates;
  }

  lemma AwaitsClaimed(s: System, content: I.Msg -> D.Message, m: I.Msg)
    requires ClaimsKnown(s, content)
    ensures Awaits(s.flow, m) ==> m in s.claims && Claimed(s, m)
  {
    hide Undelivered, Awaits;
  }

  lemma RequestSettles(r: D.State, call: D.Step, w: D.WaiterId, message: D.Message)
    requires D.Applicable(r, call) && !call.ClaimStep? && !call.DeliverStep?
    ensures var z := D.Apply(r, call); ClaimsGrow(r, z) && Settles(r, z, w, false, message)
  {
    D.OnlyDeliveryAnswers(r, call);
    hide D.Apply, D.Applicable;
  }

  /** Calls on the dispatcher leave the flow, and so the fate of every message, alone. */
  lemma SameFlow(s: System, requests: D.State, content: I.Msg -> D.Message, m: I.Msg)
    requires ClaimsGrow(s.requests, requests) && Fates(s) && Undelivered(s.flow.inflight)
    ensures var z := s.(requests := requests);
            && Records(s, z, m, content) && Effect(s.flow, z.flow, m, false, false, Awaits(s.flow, m))
            && (m in z.claims ==> Fate(z, m)) && Undelivered(z.flow.inflight)
  {
    assert m in s.claims ==> Fate(s, m);
    hide Awaits, Undelivered, ClaimsGrow;
  }

  lemma RequestKeeps(s: System, call: D.Step, content: I.Msg -> D.Message)
    requires Linked(s, content) && D.Applicable(s.requests, call) && !call.ClaimStep? && !call.DeliverStep?
    ensures Linked(s.(requests := D.Apply(s.requests, call)), content)
  {
    hide *;
    var m := I.Msg(0, 0, 0);
    var z := s.(requests := D.Apply(s.requests, call));
    LinkedParts(s, content);
    D.ApplicableIsEnabled(s.requests, call);
    D.StepKeeps(s.requests, call);
    RequestSettles(s.requests, call, if Claimed(z, m) then WaiterOf(z, m) else 0, content(m));
    SameFlow(s, z.requests, content, m);
    AwaitsClaimed(s, content, m);
    LinkedAfter(s, z, content, m, false, false, Awaits(s.flow, m));
  }

  /** A flow step that selects a recipient: a request if and only if the message is claimable. */
  lemma SelectedForm(s: System, e: I.Step, content: I.Msg -> D.Message, m: I.Msg)
    requires Enabled(s, FlowStep(e), content) && Selected(s.flow, e) == Some(m)
    ensures var e' := Resolved(s, e, content);
            && I.Enabled(s.flow, e')
            && Apply(s, FlowStep(e), content) ==
               if D.Claimable(s.requests, content(m)) then Claiming(s, I.Apply(s.flow, e'), m, content)
               else s.(flow := I.Apply(s.flow, e'))
  {
    hide D.Claimable, I.Apply, Claiming, D.Complete;
  }

  lemma SelectingKeeps(s: System, e: I.Step, content: I.Msg -> D.Message, m: I.Msg)
    requires Linked(s, content) && Enabled(s, FlowStep(e), content) && Selected(s.flow, e) == Some(m)
    ensures Linked(Apply(s, FlowStep(e), content), content)
  {
    hide *;
    LinkedParts(s, content);
    SelectedForm(s, e, content, m);
    var e' := Resolved(s, e, content);
    var flow := I.Apply(s.flow, e');
    FlowKeeps(s.flow, e');
    SelectedEffect(s, e, content, m);
    if D.Claimable(s.requests, content(m)) {
      ClaimingKeeps(s, flow, m, content);
    } else {
      EffectQuiet(s.flow, flow, m);
      FlowQuietKeeps(s, flow, content);
    }
  }

  lemma FlowKeeps(s: I.State, e: I.Step)
    requires I.Sound(s) && I.QuotaKept(s) && I.Enabled(s, e)
    ensures I.Sound(I.Apply(s, e)) && I.QuotaKept(I.Apply(s, e))
  {
    hide I.Sound, I.QuotaKept, I.Enabled, I.Apply;
    I.StepKeeps(s, e);
    I.StepQuota(s, e);
  }

  lemma EffectQuiet(s: I.State, z: I.State, m: I.Msg)
    requires Effect(s, z, m, false, false, false) && !Awaits(s, m) && Undelivered(z.inflight)
    ensures Quiet(s, z)
  {
    hide Awaits, Undelivered;
  }

  lemma SelectedEffect(s: System, e: I.Step, content: I.Msg -> D.Message, m: I.Msg)
    requires I.Sound(s.flow) && Undelivered(s.flow.inflight)
    requires Enabled(s, FlowStep(e), content) && Selected(s.flow, e) == Some(m)
    ensures var z := I.Apply(s.flow, Resolved(s, e, content)); var asks := D.Claimable(s.requests, content(m));
            && Effect(s.flow, z, m, asks && m.qos < 2, false, asks && m.qos == 2) && Undelivered(z.inflight)
            && !Awaits(s.flow, m) && !Handed(s, m) && !Stale(s, m) && 0 <= m.qos <= 2
  {
    hide I.Sound, Effect, Awaits, Undelivered, D.Claimable, I.Publish, I.Drain, I.Selects;
    match e
    case PublishStep(_, sel) =>
      PublishEffect(s.flow, m, if D.Claimable(s.requests, content(m)) then I.Take(I.Request, false) else sel);
    case DrainStep(_, r, detached) =>
      HeldQoS(s.flow, m);
      if D.Claimable(s.requests, content(m)) {
        DrainEffect(s.flow, m, I.Request, false);
      } else {
        DrainEffect(s.flow, m, r, detached);
      }
    case _ =>
  }

  lemma HeldQoS(s: I.State, m: I.Msg)
    requires I.Sound(s) && m in s.held
    ensures 0 <= m.qos <= 2
  {
    I.SoundParts(s);
    hide I.Sound;
  }

  lemma ReleasedAwaits(s: I.State, e: I.Step)
    requires I.Sound(s) && Released(s, e).Some?
    ensures Awaits(s, Released(s, e).value) && e.pid == Released(s, e).value.pid
  {
    I.SoundParts(s);
    hide I.Sound;
  }

  /** PUBREL for a claimed message. */
  lemma ReleasedEffect(s: System, e: I.Step, content: I.Msg -> D.Message)
    requires Linked(s, content) && Enabled(s, FlowStep(e), content) && Released(s.flow, e).Some?
    ensures var m := Released(s.flow, e).value; var z := Apply(s, FlowStep(e), content);
            && m in s.claims && Claimed(s, m) && Awaits(s.flow, m) && Undelivered(z.flow.inflight)
            && z == System(z.flow, D.Complete(s.requests, s.claims[m]), s.claims)
            && var live := D.Reaches(s.requests, s.claims[m]);
               && z.flow == I.PubRel(s.flow, e.pid, !live) && Effect(s.flow, z.flow, m, live, !live, false)
               && z.flow.trace == s.flow.trace + I.AfterComp(m, I.Request, !live)
  {
    var m := Released(s.flow, e).value;
    hide Linked, I.Sound, I.QuotaKept, I.PubRel, Effect, Awaits, ClaimsKnown, Fates, D.Reaches, D.Complete, I.AfterComp;
    LinkedParts(s, content);
    ReleasedAwaits(s.flow, e);
    AwaitsClaimed(s, content, m);
    assert !s.flow.inflight[e.pid].delivered;
    hide Undelivered;
    ReleaseEffect(s.flow, e.pid, !D.Reaches(s.requests, s.claims[m]));
  }

  lemma StepLinked(s: System, e: Step, content: I.Msg -> D.Message)
    requires Linked(s, content) && Enabled(s, e, content)
    ensures Linked(Apply(s, e, content), content)
  {
    hide Linked, Effect, Awaits, Undelivered, I.Apply, I.Enabled, I.Sound, I.QuotaKept, D.Apply, D.Applicable, D.Reaches, D.Complete,
         D.Claimable, Claiming, I.Selects, ClaimsKnown, Fates, I.PubRel, I.AfterComp, D.Sound, Quiet;
    match e
    case RequestStep(call) => RequestKeeps(s, call, content);
    case FlowStep(step) =>
      LinkedParts(s, content);
      if Selected(s.flow, step).Some? {
        SelectingKeeps(s, step, content, Selected(s.flow, step).value);
      } else if Released(s.flow, step).Some? {
        var m := Released(s.flow, step).value;
        ReleasedEffect(s, step, content);
        FlowKeeps(s.flow, Resolved(s, step, content));
        ReleasingKeeps(s, Apply(s, e, content).flow, m, content);
      } else {
        FlowKeeps(s.flow, step);
        PlainQuiet(s.flow, step);
        FlowQuietKeeps(s, I.Apply(s.flow, step), content);
      }
  }

  // Whole runs.

  function Initial(limit: Option<nat>, sessionPresent: bool, max: nat): System
    requires max > 0
  {
    System(I.Initial(limit, sessionPresent), D.Initial(max), map[])
  }

  ghost predicate Runs(s: System, steps: seq<Step>, end: System, content: I.Msg -> D.Message)
    decreases |steps|
  {
    if steps == [] then s == end
    else Enabled(s, steps[0], content) && Runs(Apply(s, steps[0], content), steps[1..], end, content)
  }

  lemma {:induction false} RunsLinked(s: System, steps: seq<Step>, end: System, content: I.Msg -> D.Message)
    requires Linked(s, content) && Runs(s, steps, end, content)
    ensures Linked(end, content)
    decreases |steps|
  {
    hide Linked, Enabled, Apply;
    if steps != [] {
      StepLinked(s, steps[0], content);
      RunsLinked(Apply(s, steps[0], content), steps[1..], end, content);
    }
  }

  lemma InitialLinked(limit: Option<nat>, sessionPresent: bool, max: nat, content: I.Msg -> D.Message)
    requires max > 0
    ensures Linked(Initial(limit, sessionPresent, max), content)
  {
    I.InitialSound(limit, sessionPresent);
    D.InitialSound(max);
    hide I.Sound, D.Sound, I.QuotaKept;
  }

  /**
   * In every run of flow and dispatcher together, messages handed to requests and waiters with a result correspond one
   * to one: each such message is the result of the waiter it was claimed for, under that waiter's own key, no waiter
   * gets two, and no waiter has a result from anywhere else.
   */
  lemma AnsweredExactly(limit: Option<nat>, sessionPresent: bool, max: nat, steps: seq<Step>, end: System, content: I.Msg -> D.Message)
    requires max > 0 && Runs(Initial(limit, sessionPresent, max), steps, end, content)
    ensures forall m :: Handed(end, m) ==>
              Claimed(end, m) && WaiterOf(end, m) < |end.requests.waiters| &&
              var waiter := end.requests.waiters[WaiterOf(end, m)];
              waiter.future == D.Result(content(m)) && D.KeyOf(content(m)) == Some(waiter.key)
    ensures forall m, n :: Handed(end, m) && Handed(end, n) && m != n ==> WaiterOf(end, m) != WaiterOf(end, n)
    ensures forall w :: Answered(end, w) ==> exists m :: Handed(end, m) && WaiterOf(end, m) == w
  {
    InitialLinked(limit, sessionPresent, max, content);
    RunsLinked(Initial(limit, sessionPresent, max), steps, end, content);
    ResultsKeyed(end.requests);
    hide Runs, I.Sound, I.QuotaKept, ClaimsKnown, Fates, D.Sound, D.KeyOf, Handed, WaiterOf;
  }

  lemma ResultsKeyed(r: D.State)
    requires D.Sound(r)
    ensures forall w: D.WaiterId :: HasResult(r, w) ==> D.KeyOf(r.waiters[w].future.message) == Some(r.waiters[w].key)
  {
    hide D.KeyOf, D.InterestsCounted, D.ClaimsKeyed, D.ClaimsMarked, D.ClaimsExclusive, D.ReadinessKept, D.GuardsKept,
         D.RemovalsKept, D.WaitersKeyed;
  }

  /** Only exchanges that are over have stale claims. */
  lemma {:induction false} StaleCompleted(trace: I.Trace, m: I.Msg)
    requires I.Justified(trace) && I.Stale(m) in trace
    ensures I.PubCompSent(m) in trace && m.qos == 2
    decreases |trace|
  {
    var front, last := trace[..|trace| - 1], trace[|trace| - 1];
    assert trace == front + [last];
    if I.Stale(m) in front {
      StaleCompleted(front, m);
    } else {
      assert I.Justifies(front, last);
      if m.qos != 2 {
        I.NoExchangeBelowTwo(front, m);
      }
    }
  }

  lemma AwaitingIsOpen(s: I.State, m: I.Msg)
    requires I.Sound(s) && Awaits(s, m)
    ensures m.qos == 2 && I.PubCompSent(m) !in s.trace
  {
    I.SoundParts(s);
    I.MsgIsOk(s, m);
    hide I.Sound, I.IdsDisjoint, I.Justified;
  }

  /**
   * In every run, a claimed message meets exactly one fate: at QoS 0 and 1 it is handed on; at QoS 2 it awaits PUBREL,
   * and once PUBCOMP is sent it has been handed on or its claim was stale.
   */
  lemma ClaimedExactly(limit: Option<nat>, sessionPresent: bool, max: nat, steps: seq<Step>, end: System, content: I.Msg -> D.Message, m: I.Msg)
    requires max > 0 && Runs(Initial(limit, sessionPresent, max), steps, end, content) && m in end.claims
    ensures Fate(end, m)
    ensures m.qos != 2 ==> Handed(end, m)
    ensures I.PubCompSent(m) in end.flow.trace && !Handed(end, m) ==> Stale(end, m)
    ensures Stale(end, m) ==> I.PubCompSent(m) in end.flow.trace
  {
    InitialLinked(limit, sessionPresent, max, content);
    RunsLinked(Initial(limit, sessionPresent, max), steps, end, content);
    LinkedParts(end, content);
    I.SoundParts(end.flow);
    if Awaits(end.flow, m) {
      AwaitingIsOpen(end.flow, m);
    }
    if Stale(end, m) {
      StaleCompleted(end.flow.trace, m);
    }
    assert Fate(end, m);
    hide Runs, I.Sound, I.QuotaKept, ClaimsKnown, D.Sound, Linked, I.Justified, Awaits;
  }

  /**
   * PUBREL for a claimed message: PUBCOMP is sent, and the waiter gets the message if and only if the claim passes the
   * guard of `complete` at that moment; otherwise nobody gets it.
   */
  lemma PubRelReachesExactly(s: System, e: I.Step, content: I.Msg -> D.Message)
    requires Linked(s, content) && Enabled(s, FlowStep(e), content) && Released(s.flow, e).Some?
    ensures var m := Released(s.flow, e).value; var z := Apply(s, FlowStep(e), content);
            && Claimed(s, m) && WaiterOf(s, m) < |s.requests.waiters| && |z.requests.waiters| == |s.requests.waiters|
            && I.PubCompSent(m) in z.flow.trace
            && (Handed(z, m) <==> D.Reaches(s.requests, s.claims[m])) && (Stale(z, m) <==> !D.Reaches(s.requests, s.claims[m]))
            && (D.Reaches(s.requests, s.claims[m]) <==>
                s.requests.waiters[WaiterOf(s, m)].future.Pending? &&
                z.requests.waiters[WaiterOf(s, m)].future == D.Result(content(m)))
            && (!D.Reaches(s.requests, s.claims[m]) ==> z.requests.waiters == s.requests.waiters)
  {
    var m := Released(s.flow, e).value;
    var z := Apply(s, FlowStep(e), content);
    ReleasedEffect(s, e, content);
    LinkedParts(s, content);
    I.AfterCompIs(m, I.Request, !D.Reaches(s.requests, s.claims[m]));
    D.ClaimReachesExactly(s.requests, s.claims[m]);
    assert s.requests.claims[s.claims[m]].message == content(m);
    assert Fate(s, m);
    assert I.AfterComp(m, I.Request, !D.Reaches(s.requests, s.claims[m]))[0] == I.PubCompSent(m);
    hide Linked, I.Sound, I.QuotaKept, D.Sound, I.PubRel, Awaits, Undelivered, ClaimsKnown, Fates, D.Reaches, D.Complete, I.AfterComp,
         Apply, Enabled, Released;
  }

  /**
   * A selected message goes to a request if and only if it is claimable at that moment, and at QoS 0 or 1 then answers
   * it at once.
   */
  lemma RequestChosenExactly(s: System, e: I.Step, content: I.Msg -> D.Message, m: I.Msg)
    requires Linked(s, content) && Enabled(s, FlowStep(e), content) && Selected(s.flow, e) == Some(m)
    ensures var z := Apply(s, FlowStep(e), content);
            && (Handed(z, m) || Awaits(z.flow, m) <==> D.Claimable(s.requests, content(m)))
            && (Handed(z, m) <==> D.Claimable(s.requests, content(m)) && m.qos < 2)
            && (Handed(z, m) ==> Claimed(z, m) && Answered(z, WaiterOf(z, m)) &&
                                 z.requests.waiters[WaiterOf(z, m)].future == D.Result(content(m)))
  {
    LinkedParts(s, content);
    SelectedEffect(s, e, content, m);
    StepLinked(s, FlowStep(e), content);
    FlowOf(s, e, content);
    LinkedHanded(Apply(s, FlowStep(e), content), content);
    hide Linked, Enabled, Apply, D.Claimable, Selected, Resolved, Awaits, I.Sound, D.Sound, I.QuotaKept, ClaimsKnown, Fates, Undelivered,
         I.Apply, I.Enabled;
  }

  lemma FlowOf(s: System, e: I.Step, content: I.Msg -> D.Message)
    requires Enabled(s, FlowStep(e), content)
    ensures I.Enabled(s.flow, Resolved(s, e, content))
    ensures Apply(s, FlowStep(e), content).flow == I.Apply(s.flow, Resolved(s, e, content))
  {
    hide I.Apply, I.Enabled, D.Complete, D.Claimable, Selected, Released, Resolved;
  }

  lemma LinkedHanded(s: System, content: I.Msg -> D.Message)
    requires Linked(s, content)
    ensures HandedArrived(s, content)
  {
    hide I.Sound, D.Sound, I.QuotaKept, ClaimsKnown, Fates, HandedApart, ResultsHanded, HandedArrived;
  }

  // A reply whose requester gives up between PUBLISH and PUBREL.

  const LATE := I.Msg(0, 2, 7)

  function LateContent(): I.Msg -> D.Message { m => D.Message("t", Some([1]), []) }

  /** One request waits for replies on topic t, its registration over. */
  const ONE_WAITING := D.ASKING.(waiters := [D.Waiter(D.REPLY, D.Pending, false, false, 0, true)], tasks := [D.Task("t", 1, D.Succeeded)])

  const CLAIM := D.Claim(0, D.REPLY, D.Message("t", Some([1]), []), 1)

  const CLAIMED_ONE := ONE_WAITING.(waiters := [D.Waiter(D.REPLY, D.Pending, true, false, 0, true)], claims := [CLAIM])

  const GAVE_UP := CLAIMED_ONE.(pending := map[], topics := map[], waiters := [D.Waiter(D.REPLY, D.Cancelled, true, true, 0, true)],
                                interests := [D.Interest("t", 0, Some(0))],
                                unregistering := map[0 := D.AwaitRemoval(D.Removal("t", 1, 1, false))])

  const ACCEPTED := I.Initial(None, false).(unacked := {7}, inflight := map[7 := I.Flight(LATE, I.Request, false)], arrived := 1,
                                            seen := {LATE}, trace := [I.Accepted(LATE), I.PubRecSent(LATE)])

  lemma Subscribed()
    ensures D.Runs(D.ASKING, [D.AckStep(0, true), D.ReturnStep(0)], ONE_WAITING)
  {
    var answered := D.ASKING.(tasks := [D.Task("t", 1, D.Succeeded)]);
    assert D.Apply(D.ASKING, D.AckStep(0, true)) == answered;
    assert D.Apply(answered, D.ReturnStep(0)) == ONE_WAITING;
    D.RunsBack(answered, D.ReturnStep(0), [], ONE_WAITING);
    D.RunsBack(D.ASKING, D.AckStep(0, true), [D.ReturnStep(0)], ONE_WAITING);
  }

  lemma OneWaits()
    ensures D.Runs(D.Initial(1), ASKED, ONE_WAITING)
  {
    assert ASKED == [D.BindStep, D.RegisterStep(D.REPLY), D.StartStep(0, false)] + [D.AckStep(0, true), D.ReturnStep(0)];
    hide *;
    D.RegistrationAsks();
    Subscribed();
    D.RunsJoin(D.Initial(1), [D.BindStep, D.RegisterStep(D.REPLY), D.StartStep(0, false)], D.ASKING,
               [D.AckStep(0, true), D.ReturnStep(0)], ONE_WAITING);
  }

  /** A request is registered: the observer is asked for, SUBACK comes, and `register` returns. */
  const ASKED := [D.BindStep, D.RegisterStep(D.REPLY), D.StartStep(0, false), D.AckStep(0, true), D.ReturnStep(0)]

  /** Its reply is claimed and accepted, the wait for it times out, it is closed, and PUBREL comes. */
  const LATE_STEPS := [FlowStep(I.PublishStep(LATE, I.Take(I.Nobody, false))), RequestStep(D.CancelFutureStep(0)),
                       RequestStep(D.CloseStep(0, 0)), FlowStep(I.PubRelStep(7, false))]

  lemma ReplyClaimed()
    ensures var e := FlowStep(I.PublishStep(LATE, I.Take(I.Nobody, false))); var s := System(I.Initial(None, false), ONE_WAITING, map[]);
            Enabled(s, e, LateContent()) && Apply(s, e, LateContent()) == System(ACCEPTED, CLAIMED_ONE, map[LATE := 0])
  {
    assert D.MakeClaim(ONE_WAITING, LateContent()(LATE)) == CLAIMED_ONE;
    var t := I.Initial(None, false).(arrived := 1, seen := {LATE});
    assert I.HoldQuota(t, 7).unacked == {7};
    assert I.Publish(I.Initial(None, false), LATE, I.Take(I.Request, false)) == ACCEPTED;
  }

  lemma TimedOut()
    ensures D.Runs(CLAIMED_ONE, [D.CancelFutureStep(0), D.CloseStep(0, 0)], GAVE_UP)
  {
    var cancelled := CLAIMED_ONE.(waiters := [D.Waiter(D.REPLY, D.Cancelled, true, false, 0, true)]);
    assert D.Apply(CLAIMED_ONE, D.CancelFutureStep(0)) == cancelled;
    assert D.Apply(cancelled, D.CloseStep(0, 0)) == GAVE_UP;
    D.RunsBack(cancelled, D.CloseStep(0, 0), [], GAVE_UP);
    D.RunsBack(CLAIMED_ONE, D.CancelFutureStep(0), [D.CloseStep(0, 0)], GAVE_UP);
  }

  /** Calls made on the dispatcher alone. */
  function Calls(calls: seq<D.Step>): seq<Step> { seq(|calls|, i requires 0 <= i < |calls| => RequestStep(calls[i])) }

  lemma {:induction false} CallsRun(s: System, calls: seq<D.Step>, r: D.State, steps: seq<Step>, end: System, content: I.Msg -> D.Message)
    requires D.Runs(s.requests, calls, r) && forall c :: c in calls ==> !c.ClaimStep? && !c.DeliverStep?
    requires Runs(s.(requests := r), steps, end, content)
    ensures Runs(s, Calls(calls) + steps, end, content)
    decreases |calls|
  {
    hide D.Applicable, D.Apply;
    if calls == [] {
      assert Calls(calls) + steps == steps && s.(requests := r) == s;
    } else {
      var y := s.(requests := D.Apply(s.requests, calls[0]));
      CallsRun(y, calls[1..], r, steps, end, content);
      assert Calls(calls) + steps == [RequestStep(calls[0])] + (Calls(calls[1..]) + steps);
      CallEnabled(s, calls[0], content);
      hide Enabled, Apply;
      RunsBack(s, RequestStep(calls[0]), y, Calls(calls[1..]) + steps, end, content);
    }
  }

  lemma CallEnabled(s: System, call: D.Step, content: I.Msg -> D.Message)
    requires D.Applicable(s.requests, call) && !call.ClaimStep? && !call.DeliverStep?
    ensures Enabled(s, RequestStep(call), content)
    ensures Apply(s, RequestStep(call), content) == s.(requests := D.Apply(s.requests, call))
  {
    hide D.Applicable, D.Apply;
  }

  /** A run with one more step in front. */
  lemma RunsBack(s: System, e: Step, y: System, steps: seq<Step>, end: System, content: I.Msg -> D.Message)
    requires Enabled(s, e, content) && Apply(s, e, content) == y && Runs(y, steps, end, content)
    ensures Runs(s, [e] + steps, end, content)
  {
    assert ([e] + steps)[0] == e && ([e] + steps)[1..] == steps;
    hide Enabled, Apply;
  }

  lemma TooLate() returns (end: System)
    ensures Runs(System(ACCEPTED, GAVE_UP, map[LATE := 0]), [FlowStep(I.PubRelStep(7, false))], end, LateContent())
    ensures end.flow.trace == [I.Accepted(LATE), I.PubRecSent(LATE), I.PubCompSent(LATE), I.Stale(LATE)]
    ensures forall w :: !Answered(end, w)
  {
    var late := System(ACCEPTED, GAVE_UP, map[LATE := 0]);
    end := System(I.PubRel(ACCEPTED, 7, true), D.Complete(GAVE_UP, 0), map[LATE := 0]);
    assert Apply(late, FlowStep(I.PubRelStep(7, false)), LateContent()) == end;
    I.PubRelIs(ACCEPTED, 7, true);
    assert D.Complete(GAVE_UP, 0) == GAVE_UP.(delivered := {0});
    RunsBack(late, FlowStep(I.PubRelStep(7, false)), end, [], end, LateContent());
  }

  /**
   * A QoS 2 reply is claimed and accepted, its requester times out and closes, PUBREL comes: PUBCOMP goes out, the claim
   * is stale, and nobody has the message.
   */
  lemma LateReleaseReachesNobody() returns (end: System)
    ensures Runs(Initial(None, false, 1), Calls(ASKED) + LATE_STEPS, end, LateContent())
    ensures end.flow.trace == [I.Accepted(LATE), I.PubRecSent(LATE), I.PubCompSent(LATE), I.Stale(LATE)]
    ensures forall w :: !Answered(end, w)
  {
    end := AfterTimeout();
    OneWaits();
    hide Runs, D.Runs, Calls;
    CallsRun(Initial(None, false, 1), ASKED, ONE_WAITING, LATE_STEPS, end, LateContent());
  }

  lemma LateSteps()
    ensures [FlowStep(I.PublishStep(LATE, I.Take(I.Nobody, false)))] +
            (Calls([D.CancelFutureStep(0), D.CloseStep(0, 0)]) + [FlowStep(I.PubRelStep(7, false))]) == LATE_STEPS
  {
  }

  lemma AfterTimeout() returns (end: System)
    ensures Runs(System(I.Initial(None, false), ONE_WAITING, map[]), LATE_STEPS, end, LateContent())
    ensures end.flow.trace == [I.Accepted(LATE), I.PubRecSent(LATE), I.PubCompSent(LATE), I.Stale(LATE)]
    ensures forall w :: !Answered(end, w)
  {
    var given := [D.CancelFutureStep(0), D.CloseStep(0, 0)];
    var s := System(ACCEPTED, CLAIMED_ONE, map[LATE := 0]);
    var publish, pubrel := FlowStep(I.PublishStep(LATE, I.Take(I.Nobody, false))), FlowStep(I.PubRelStep(7, false));
    hide *;
    LateSteps();
    end := TooLate();
    ReplyClaimed();
    TimedOut();
    CallsRun(s, given, GAVE_UP, [pubrel], end, LateContent());
    RunsBack(System(I.Initial(None, false), ONE_WAITING, map[]), publish, s, Calls(given) + [pubrel], end, LateContent());
  }
}
