/** The inbound flow together with the replay buffer it holds messages in. */
module Session {
  import opened Util
  import I = Inbound
  import R = Replay

  /**
   * `leaving` is a message handed on whose acknowledgement is being sent: the flow is done with it, the buffer has not
   * discarded it yet.
   */
  datatype System = System(flow: I.State, buffer: R.State, leaving: Option<I.Msg>)

  function Leaving(s: System): set<I.Msg> { if s.leaving.Some? then {s.leaving.value} else {} }

  /** A message as the buffer sees it; `route` gives its topic and subscription identifier. */
  function ToPublish(m: I.Msg, route: I.Msg -> R.Route): R.Publish {
    R.Publish(m.serial, route(m).topic, route(m).identifier, if m.qos > 0 then Some(m.pid) else None, m.qos)
  }

  function KindOf(r: I.Recipient): R.Recipient {
    match r
    case Nobody => R.NoRecipient
    case Request => R.Request
    case Subscription(_) => R.Subscription
  }

  /** The flow has no record of the identifier, but the buffer still has: it belongs to the message that is leaving. */
  predicate Mistaken(s: System, m: I.Msg) {
    I.Selects(s.flow, m) && m.qos > 0 && s.leaving.Some? && s.leaving.value.qos > 0 && s.leaving.value.pid == m.pid
  }

  /** `contains_packet_id` makes the handler return: the message counts against the quota, and that is all. */
  function Lose(flow: I.State, m: I.Msg): I.State {
    I.TurnAway(I.HoldQuota(flow.(arrived := flow.arrived + 1, seen := flow.seen + {m}), m.pid), m)
  }

  /** The replay layer takes part in selecting the recipient of `m`. */
  predicate Consults(s: System, m: I.Msg) { I.Selects(s.flow, m) && !Mistaken(s, m) && !s.flow.replay.NoSession? }

  function VerdictOn(s: System, m: I.Msg, r: I.Recipient, route: I.Msg -> R.Route): R.Accepted {
    R.Verdict(s.buffer, ToPublish(m, route), KindOf(r))
  }

  /** What the flow makes of the verdict. A message the flow takes in is never a duplicate to the buffer. */
  function Chosen(s: System, m: I.Msg, r: I.Recipient, detached: bool, route: I.Msg -> R.Route): I.Selection {
    if s.flow.replay.NoSession? then I.Take(r, detached)
    else if !Consults(s, m) then I.Hold
    else
      match VerdictOn(s, m, r, route)
      case Passed => I.Take(r, detached)
      case Overflow => I.Overflow
      case Buffered => I.Hold
      case Duplicate => I.Hold
  }

  datatype Step =
    | PublishStep(msg: I.Msg, recipient: I.Recipient, detached: bool)
    | OtherStep(step: I.Step)                                          // PUBREL, the end of a put, ack()
    | BeginStep | SwapStep
    | StayStep(full: bool)                                             // nobody for the message, or no room
    | GoStep(msg: I.Msg, recipient: I.Recipient, detached: bool)       // it is handed on, up to the send of an acknowledgement
    | DoneStep                                                         // the acknowledgement is sent: it is discarded
    | EndStep
    | ExpireStep
    | ClearStep

  predicate PassOpen(b: R.State) { b.pass.Some? && b.pass.value.delivering.None? }

  predicate Enabled(s: System, e: Step, route: I.Msg -> R.Route) {
    && !s.flow.closed
    && match e
       case PublishStep(m, r, detached) => I.Enabled(s.flow, I.PublishStep(m, Chosen(s, m, r, detached, route)))
       case OtherStep(step) => (step.PubRelStep? || step.FinishPutStep? || step.AppAckStep?) && I.Enabled(s.flow, step)
       case BeginStep => s.flow.replay.Buffered? && s.buffer.pass.None?
       case SwapStep => R.Enabled(s.buffer, R.SwapStep)
       case StayStep(_) => PassOpen(s.buffer) && s.buffer.pass.value.pending != []
       case GoStep(m, r, detached) =>
         && PassOpen(s.buffer) && s.buffer.pass.value.pending != [] && s.buffer.pass.value.pending[0] == ToPublish(m, route)
         && I.Enabled(s.flow, I.DrainStep(m, r, detached))
       case DoneStep => s.leaving.Some? && R.Delivering(s.buffer)
       case EndStep => R.Enabled(s.buffer, R.EndStep) && I.Enabled(s.flow, I.DrainEndStep)
       case ExpireStep => R.Enabled(s.buffer, R.EndStep) && I.Enabled(s.flow, I.ExpireStep)
       case ClearStep => true
  }

  /** Held messages a drain under way has in its hands. */
  function InHands(s: System, route: I.Msg -> R.Route): set<I.Msg> {
    set m | m in s.flow.held && ToPublish(m, route) in R.Locals(s.buffer.pass)
  }

  function FindingFor(r: I.Recipient): R.Finding { if r.Request? then R.Claimed else R.Room }

  /** Handing the message on ends with the send of PUBACK or PUBREC, during which others run. */
  predicate Sends(m: I.Msg, r: I.Recipient, detached: bool) { m.qos > 0 && I.Auto(r) && !(r.Subscription? && detached) }

  /** A message handed on without interruption. */
  function HandOn(b: R.State, f: R.Finding): R.State
    requires PassOpen(b) && b.pass.value.pending != [] && (f.Claimed? || f.Room?)
  {
    R.Delivered(R.Turn(b, f))
  }

  function Apply(s: System, e: Step, route: I.Msg -> R.Route): System
    requires Enabled(s, e, route)
  {
    match e
    case PublishStep(m, r, detached) =>
      s.(flow := if Mistaken(s, m) then Lose(s.flow, m) else I.Apply(s.flow, I.PublishStep(m, Chosen(s, m, r, detached, route))),
         buffer := if Consults(s, m) then R.Accepting(s.buffer, ToPublish(m, route), KindOf(r)) else s.buffer)
    case OtherStep(step) => s.(flow := I.Apply(s.flow, step))
    case BeginStep => s.(buffer := R.BeginPass(s.buffer))
    case SwapStep => s.(buffer := R.Swap(s.buffer))
    case StayStep(full) => s.(buffer := R.Turn(s.buffer, if full then R.Full else R.Nobody))
    case GoStep(m, r, detached) =>
      var flow := I.Apply(s.flow, I.DrainStep(m, r, detached));
      if Sends(m, r, detached) then System(flow, R.Turn(s.buffer, FindingFor(r)), Some(m))
      else System(flow, HandOn(s.buffer, FindingFor(r)), None)
    case DoneStep => s.(buffer := R.Delivered(s.buffer), leaving := None)
    case EndStep => s.(flow := I.Apply(s.flow, I.DrainEndStep), buffer := R.Close(s.buffer))
    case ExpireStep => s.(flow := I.Apply(s.flow, I.ExpireStep), buffer := R.Empty(R.Close(s.buffer)))
    case ClearStep => s.(flow := I.Apply(s.flow, I.ClearStep(InHands(s, route))), buffer := R.Empty(s.buffer))
  }

  // What always holds.

  /** The flow's messages are exactly those of the buffer. */
  ghost predicate Mirrors(held: set<I.Msg>, buffered: seq<R.Publish>, route: I.Msg -> R.Route) {
    && (forall m :: m in held ==> ToPublish(m, route) in buffered)
    && (forall p :: p in buffered ==> exists m :: m in held && ToPublish(m, route) == p)
  }

  /** Held messages are told apart by their arrival. */
  ghost predicate Apart(held: set<I.Msg>) { forall m, n :: m in held && n in held && m.serial == n.serial ==> m == n }

  /** The messages the buffer is responsible for. */
  function All(s: System): set<I.Msg> { s.flow.held + Leaving(s) }

  /** A message is leaving exactly while the pass waits for its delivery to return, and it has been received. */
  ghost predicate LeavingKnown(s: System, route: I.Msg -> R.Route) {
    && (s.buffer.pass.Some? ==> s.flow.replay.Buffered? || s.flow.closed)
    && (s.leaving.None? ==> s.buffer.pass.Some? ==> s.buffer.pass.value.delivering.None?)
    && (s.leaving.Some? ==>
          var m := s.leaving.value;
          && R.Delivering(s.buffer) && s.buffer.pass.value.delivering.value.publish == ToPublish(m, route)
          && m !in s.flow.held && m.serial < s.flow.arrived && m in s.flow.seen && m !in s.flow.turnedAway)
  }

  ghost predicate Linked(s: System, route: I.Msg -> R.Route) {
    && I.Sound(s.flow) && I.QuotaKept(s.flow) && I.TurnedAwayKnown(s.flow)
    && (s.flow.closed || R.Sound(s.buffer))
    && R.Ascending(R.Held(s.buffer), s.buffer.arrived) && s.buffer.arrived <= s.flow.arrived
    && Mirrors(All(s), R.Held(s.buffer), route) && Apart(All(s)) && LeavingKnown(s, route)
  }

  lemma LinkedParts(s: System, route: I.Msg -> R.Route)
    requires Linked(s, route)
    ensures I.Sound(s.flow) && I.QuotaKept(s.flow) && I.TurnedAwayKnown(s.flow) && (s.flow.closed || R.Sound(s.buffer))
    ensures R.Ascending(R.Held(s.buffer), s.buffer.arrived) && s.buffer.arrived <= s.flow.arrived
    ensures Mirrors(All(s), R.Held(s.buffer), route) && Apart(All(s)) && LeavingKnown(s, route)
  {
    hide I.Sound, I.QuotaKept, I.TurnedAwayKnown, R.Sound, R.Ascending, R.Held, Mirrors, Apart, LeavingKnown;
  }

  /** `contains_packet_id` answers for what is held and for what is leaving. */
  lemma ContainsAgree(s: System, route: I.Msg -> R.Route, pid: int)
    requires Linked(s, route) && !s.flow.closed
    ensures I.HeldId(All(s), pid) <==> pid in s.buffer.packetIds
  {
    LinkedParts(s, route);
    var held, all := R.Held(s.buffer), All(s);
    IdsAre(s.buffer);
    hide I.Sound, I.QuotaKept, I.TurnedAwayKnown, R.Sound, R.Ascending, R.Held, Apart, Linked, All, LeavingKnown;
    if I.HeldId(all, pid) {
      var m :| m in all && m.qos > 0 && m.pid == pid;
      R.HasId(held, ToPublish(m, route));
    }
    if pid in s.buffer.packetIds {
      var p :| p in held && p.packetId == Some(pid);
      var m :| m in all && ToPublish(m, route) == p;
      assert m.qos > 0 && m.pid == pid;
    }
  }

  lemma IdsAre(b: R.State)
    requires R.Sound(b)
    ensures b.packetIds == R.IdsOf(R.Held(b)) && b.count == |R.Held(b)| && (b.limit > 0 ==> |R.Held(b)| <= b.limit)
    ensures forall t :: t in b.topics <==> exists p :: p in R.Held(b) && p.topic == t
  {
    var held := R.Held(b);
    hide R.IdsOf, R.DistinctIds, R.Held;
    forall t
      ensures t in b.topics <==> exists p :: p in held && p.topic == t
    {
      assert R.Count(b.topics, t) == multiset(R.TopicsOf(held))[t];
      if t in b.topics {
        var i :| 0 <= i < |held| && R.TopicsOf(held)[i] == t;
        assert held[i] in held;
      }
      if p :| p in held && p.topic == t {
        var i :| 0 <= i < |held| && held[i] == p;
        assert R.TopicsOf(held)[i] == t;
      }
    }
  }

  /** What the flow takes in is never a duplicate to the buffer. */
  lemma NeverDuplicate(s: System, m: I.Msg, r: I.Recipient, route: I.Msg -> R.Route)
    requires Linked(s, route) && !s.flow.closed && Consults(s, m)
    ensures !VerdictOn(s, m, r, route).Duplicate?
  {
    ContainsAgree(s, route, m.pid);
    assert m.qos > 0 ==> !I.HeldId(s.flow.held, m.pid);
    assert m.qos > 0 ==> !I.HeldId(All(s), m.pid);
    hide Linked, I.HeldId;
  }

  // One message in, one message out.

  lemma MirrorAdded(held: set<I.Msg>, buffered: seq<R.Publish>, m: I.Msg, arrived: nat, route: I.Msg -> R.Route)
    requires Mirrors(held, buffered, route) && Apart(held) && R.Ascending(buffered, arrived) && arrived <= m.serial
    requires forall n :: n in held ==> n.serial < m.serial
    ensures Mirrors(held + {m}, buffered + [ToPublish(m, route)], route) && Apart(held + {m})
    ensures R.Ascending(buffered + [ToPublish(m, route)], m.serial + 1)
  {
    forall p | p in buffered + [ToPublish(m, route)]
      ensures exists n :: n in held + {m} && ToPublish(n, route) == p
    {
      if p in buffered {
        var n :| n in held && ToPublish(n, route) == p;
        assert n in held + {m};
      } else {
        assert m in held + {m};
      }
    }
  }

  lemma MirrorRemoved(held: set<I.Msg>, a: seq<R.Publish>, m: I.Msg, b: seq<R.Publish>, arrived: nat, route: I.Msg -> R.Route)
    requires Mirrors(held, a + [ToPublish(m, route)] + b, route) && Apart(held) && m in held
    requires R.Ascending(a + [ToPublish(m, route)] + b, arrived)
    ensures Mirrors(held - {m}, a + b, route) && Apart(held - {m}) && R.Ascending(a + b, arrived)
  {
    var p := ToPublish(m, route);
    R.AscendingMiddle(a, p, b, arrived);
    forall q | q in a + b
      ensures q.serial != p.serial && q in a + [p] + b
    {
      var i :| 0 <= i < |a + b| && (a + b)[i] == q;
    }
    forall n | n in held - {m}
      ensures ToPublish(n, route) in a + b
    {
      assert n.serial != m.serial;
    }
    forall q | q in a + b
      ensures exists n :: n in held - {m} && ToPublish(n, route) == q
    {
      var n :| n in held && ToPublish(n, route) == q;
      assert n != m;
    }
    hide R.Ascending;
  }

  /** The flow's messages among the first ones of the buffer. */
  lemma MirrorCut(held: set<I.Msg>, a: seq<R.Publish>, b: seq<R.Publish>, arrived: nat, route: I.Msg -> R.Route)
    requires Mirrors(held, a + b, route) && Apart(held) && R.Ascending(a + b, arrived)
    ensures var kept := set m | m in held && ToPublish(m, route) in a;
            Mirrors(kept, a, route) && Apart(kept) && R.Ascending(a, arrived)
  {
    var kept := set m | m in held && ToPublish(m, route) in a;
    assert forall i :: 0 <= i < |a| ==> (a + b)[i] == a[i];
    forall p | p in a
      ensures exists n :: n in kept && ToPublish(n, route) == p
    {
      assert p in a + b;
      var n :| n in held && ToPublish(n, route) == p;
      assert n in kept;
    }
  }

  // Steps.

  lemma HeldEarlier(s: System, route: I.Msg -> R.Route)
    requires I.Sound(s.flow) && LeavingKnown(s, route)
    ensures forall n :: n in All(s) ==> n.serial < s.flow.arrived
  {
    forall n | n in s.flow.held
      ensures n.serial < s.flow.arrived
    {
      I.HeldArrived(s.flow, n);
    }
    hide I.Sound;
  }

  lemma PublishEnabled(s: System, m: I.Msg, r: I.Recipient, detached: bool, route: I.Msg -> R.Route)
    requires Enabled(s, PublishStep(m, r, detached), route)
    ensures !s.flow.closed && I.Enabled(s.flow, I.PublishStep(m, Chosen(s, m, r, detached, route)))
    ensures m.serial == s.flow.arrived && 0 <= m.qos <= 2
  {
    hide Chosen;
  }

  /** A message that is lost changes the quota and is turned away. */
  lemma LoseIs(flow: I.State, m: I.Msg)
    requires 0 < m.qos <= 2 && I.Selects(flow, m)
    ensures var z := Lose(flow, m);
            && z.held == flow.held && z.replay == flow.replay && z.dropped == flow.dropped && z.arrived == flow.arrived + 1
            && z.trace == flow.trace && z.blocked == flow.blocked
            && z.closed == flow.closed && z.turnedAway == flow.turnedAway + {m} && z.seen == flow.seen + {m}
            && z.inflight == flow.inflight && z.pendingAck == flow.pendingAck && z.unacked == flow.unacked + {m.pid}
            && z.limit == flow.limit && (z.limit.Some? ==> z.closed || |z.unacked| <= z.limit.value)
  {
  }

  lemma LoseKeeps(flow: I.State, m: I.Msg, n: I.Msg)
    requires I.Sound(flow) && I.QuotaKept(flow) && I.TurnedAwayKnown(flow) && 0 < m.qos <= 2 && I.Selects(flow, m)
    requires m.serial == flow.arrived && !flow.closed
    requires n in flow.seen && n !in flow.turnedAway && n.qos > 0 && n.pid == m.pid
    ensures var z := Lose(flow, m); I.Sound(z) && I.QuotaKept(z) && I.TurnedAwayKnown(z)
  {
    LoseIs(flow, m);
    LoseSound(flow, m);
    LoseKnown(flow, m, n);
    hide I.Sound, I.TurnedAwayKnown, Lose, I.Selects;
  }

  lemma LoseSound(flow: I.State, m: I.Msg)
    requires I.Sound(flow) && m.serial == flow.arrived
    ensures I.Sound(Lose(flow, m))
  {
    var t := flow.(arrived := flow.arrived + 1, seen := flow.seen + {m});
    hide *;
    LoseForm(flow, m);
    I.ArrivedKeeps(flow, m);
    I.QuotaKeeps(t, m.pid, m);
    I.AwayKeeps(I.HoldQuota(t, m.pid), m);
  }

  lemma LoseForm(flow: I.State, m: I.Msg)
    ensures Lose(flow, m) == I.TurnAway(I.HoldQuota(flow.(arrived := flow.arrived + 1, seen := flow.seen + {m}), m.pid), m)
  {
  }

  lemma LoseKnown(flow: I.State, m: I.Msg, n: I.Msg)
    requires I.TurnedAwayKnown(flow) && 0 < m.qos <= 2 && I.Selects(flow, m) && m.serial == flow.arrived && !flow.closed
    requires n in flow.seen && n !in flow.turnedAway && n.qos > 0 && n.pid == m.pid
    ensures I.TurnedAwayKnown(Lose(flow, m))
  {
    var z := Lose(flow, m);
    LoseIs(flow, m);
    hide Lose, I.Selects;
    forall k | k in z.turnedAway
      ensures I.Repeats(z, k)
    {
      if k == m {
        assert I.Original(z, n, k);
      } else {
        assert I.Repeats(flow, k);
        var o :| I.Original(flow, o, k);
        assert I.Original(z, o, k);
      }
    }
    assert forall o: I.Msg :: I.OnRecord(z, o) ==> I.OnRecord(flow, o);
  }

  /** The flow holds a message exactly when the buffer takes it. */
  lemma PublishAgrees(s: System, m: I.Msg, r: I.Recipient, detached: bool, route: I.Msg -> R.Route)
    requires Linked(s, route) && Enabled(s, PublishStep(m, r, detached), route)
    ensures var z := Apply(s, PublishStep(m, r, detached), route); var kept := Consults(s, m) && VerdictOn(s, m, r, route).Buffered?;
            && z.flow.held == (if kept then s.flow.held + {m} else s.flow.held)
            && R.Held(z.buffer) == R.Held(s.buffer) + (if kept then [ToPublish(m, route)] else [])
            && z.flow.arrived == m.serial + 1 && (z.buffer.arrived == s.buffer.arrived || z.buffer.arrived == m.serial + 1)
            && (z.flow.replay == s.flow.replay || z.flow.replay.Buffered?) && z.buffer.pass == s.buffer.pass
            && (kept ==> z.buffer.arrived == m.serial + 1) && z.flow.dropped == s.flow.dropped && z.leaving == s.leaving
            && z.flow == if Mistaken(s, m) then Lose(s.flow, m) else I.Publish(s.flow, m, Chosen(s, m, r, detached, route))
  {
    hide *;
    var sel := Chosen(s, m, r, detached, route);
    PublishEnabled(s, m, r, detached, route);
    PublishForm(s, m, r, detached, route);
    ChosenIs(s, m, r, detached, route);
    if Consults(s, m) {
      NeverDuplicate(s, m, r, route);
    }
    if Mistaken(s, m) {
      LoseIs(s.flow, m);
    } else {
      FlowHolds(s.flow, m, sel);
    }
    BufferTakes(s, m, r, route);
    assert s.flow.held + {} == s.flow.held && R.Held(s.buffer) + [] == R.Held(s.buffer);
  }

  /** The flow holds a message exactly when it comes to select and is told to. */
  lemma FlowHolds(flow: I.State, m: I.Msg, sel: I.Selection)
    requires 0 <= m.qos <= 2
    ensures var z := I.Publish(flow, m, sel); var kept := I.Selects(flow, m) && sel.Hold?;
            && z.arrived == flow.arrived + 1 && z.dropped == flow.dropped
            && z.held == (if kept then flow.held + {m} else flow.held)
            && (if kept then z.replay == I.Buffered else z.replay == flow.replay)
  {
    I.PublishHolds(flow, m, sel);
    hide I.Publish, I.Selects;
  }

  lemma PublishForm(s: System, m: I.Msg, r: I.Recipient, detached: bool, route: I.Msg -> R.Route)
    requires Enabled(s, PublishStep(m, r, detached), route)
    ensures var z := Apply(s, PublishStep(m, r, detached), route);
            && z.flow == (if Mistaken(s, m) then Lose(s.flow, m) else I.Publish(s.flow, m, Chosen(s, m, r, detached, route)))
            && z.buffer == (if Consults(s, m) then R.Accepting(s.buffer, ToPublish(m, route), KindOf(r)) else s.buffer)
            && z.leaving == s.leaving
  {
    hide Lose, I.Publish, Chosen, Mistaken, Consults, R.Accepting, ToPublish, KindOf, I.Enabled;
  }

  /** What the flow makes of each verdict; without one it has no session, or never comes to select. */
  lemma ChosenIs(s: System, m: I.Msg, r: I.Recipient, detached: bool, route: I.Msg -> R.Route)
    ensures var sel := Chosen(s, m, r, detached, route);
            && (if Consults(s, m) then
                  var v := VerdictOn(s, m, r, route);
                  (v.Passed? ==> sel.Take?) && (v.Overflow? ==> sel.Overflow?) && (v.Buffered? ==> sel.Hold?)
                else I.Selects(s.flow, m) && !Mistaken(s, m) ==> sel.Take?)
            && (Mistaken(s, m) ==> I.Selects(s.flow, m) && m.qos > 0 && !Consults(s, m))
            && (Consults(s, m) ==> I.Selects(s.flow, m))
  {
    hide I.Selects, VerdictOn;
  }

  lemma BufferTakes(s: System, m: I.Msg, r: I.Recipient, route: I.Msg -> R.Route)
    ensures var y := R.Accepting(s.buffer, ToPublish(m, route), KindOf(r)); var taken := VerdictOn(s, m, r, route).Buffered?;
            && R.Held(y) == R.Held(s.buffer) + (if taken then [ToPublish(m, route)] else [])
            && y.pass == s.buffer.pass && (y.arrived == s.buffer.arrived || y.arrived == m.serial + 1)
            && (taken ==> y.arrived == m.serial + 1)
  {
    R.AcceptHeld(s.buffer, ToPublish(m, route), KindOf(r));
    R.AcceptPass(s.buffer, ToPublish(m, route), KindOf(r));
    hide R.Held, KindOf;
  }

  /** The flow's own invariants hold after a PUBLISH, lost or not; what was received stays so. */
  lemma PublishFlowKeeps(s: System, m: I.Msg, r: I.Recipient, detached: bool, route: I.Msg -> R.Route)
    requires Linked(s, route) && Enabled(s, PublishStep(m, r, detached), route)
    ensures var z := Apply(s, PublishStep(m, r, detached), route).flow;
            && I.Sound(z) && I.QuotaKept(z) && I.TurnedAwayKnown(z) && s.flow.seen <= z.seen && z.turnedAway <= s.flow.turnedAway + {m}
  {
    PublishEnabled(s, m, r, detached, route);
    PublishAgrees(s, m, r, detached, route);
    LinkedParts(s, route);
    hide I.Sound, I.QuotaKept, I.TurnedAwayKnown, R.Sound, R.Ascending, R.Held, Mirrors, Apart, I.Publish, I.Enabled, Chosen, I.Selects,
         R.Verdict, R.Accepting, Lose, Linked, Enabled, Apply;
    var sel := Chosen(s, m, r, detached, route);
    if Mistaken(s, m) {
      LoseKeeps(s.flow, m, s.leaving.value);
      LoseIs(s.flow, m);
    } else {
      I.StepValid(s.flow, I.PublishStep(m, sel));
      I.StepKnown(s.flow, I.PublishStep(m, sel));
      I.PublishSeen(s.flow, m, sel);
    }
  }

  lemma LinkedFrom(z: System, route: I.Msg -> R.Route)
    requires I.Sound(z.flow) && I.QuotaKept(z.flow) && I.TurnedAwayKnown(z.flow) && (z.flow.closed || R.Sound(z.buffer))
    requires R.Ascending(R.Held(z.buffer), z.buffer.arrived) && z.buffer.arrived <= z.flow.arrived
    requires Mirrors(All(z), R.Held(z.buffer), route) && Apart(All(z)) && LeavingKnown(z, route)
    ensures Linked(z, route)
  {
    hide I.Sound, I.QuotaKept, I.TurnedAwayKnown, R.Sound, R.Ascending, R.Held, Mirrors, Apart, LeavingKnown, All;
  }

  lemma LeavingStays(s: System, z: System, m: I.Msg, route: I.Msg -> R.Route)
    requires LeavingKnown(s, route) && z.leaving == s.leaving && z.buffer.pass == s.buffer.pass && m.serial == s.flow.arrived
    requires z.flow.held <= s.flow.held + {m} && z.flow.arrived == m.serial + 1 && s.flow.seen <= z.flow.seen
    requires z.flow.turnedAway <= s.flow.turnedAway + {m} && !s.flow.closed
    requires z.flow.replay == s.flow.replay || z.flow.replay.Buffered?
    ensures LeavingKnown(z, route)
  {
  }

  lemma PublishLinked(s: System, m: I.Msg, r: I.Recipient, detached: bool, route: I.Msg -> R.Route)
    requires Linked(s, route) && Enabled(s, PublishStep(m, r, detached), route)
    ensures Linked(Apply(s, PublishStep(m, r, detached), route), route)
  {
    hide *;
    var z := Apply(s, PublishStep(m, r, detached), route);
    LinkedParts(s, route);
    PublishEnabled(s, m, r, detached, route);
    PublishAgrees(s, m, r, detached, route);
    PublishFlowKeeps(s, m, r, detached, route);
    HeldEarlier(s, route);
    R.AcceptAgrees(s.buffer, ToPublish(m, route), KindOf(r));
    BufferAfter(s, m, r, detached, route);
    AllAre(s);
    AllAre(z);
    if Consults(s, m) && VerdictOn(s, m, r, route).Buffered? {
      MirrorAdded(All(s), R.Held(s.buffer), m, s.buffer.arrived, route);
      assert All(z) == All(s) + {m};
    } else {
      assert R.Held(z.buffer) == R.Held(s.buffer) && All(z) == All(s);
      AscendingLater(R.Held(s.buffer), s.buffer.arrived, z.buffer.arrived);
    }
    LeavingStays(s, z, m, route);
    LinkedFrom(z, route);
  }

  lemma AllAre(s: System)
    ensures All(s) == s.flow.held + if s.leaving.Some? then {s.leaving.value} else {}
  {
  }

  lemma BufferAfter(s: System, m: I.Msg, r: I.Recipient, detached: bool, route: I.Msg -> R.Route)
    requires Enabled(s, PublishStep(m, r, detached), route)
    ensures var z := Apply(s, PublishStep(m, r, detached), route);
            z.buffer == s.buffer || z.buffer == R.Accepting(s.buffer, ToPublish(m, route), KindOf(r))
  {
    hide R.Accepting, Lose, I.Publish;
  }

  lemma AscendingLater(held: seq<R.Publish>, arrived: nat, later: nat)
    requires R.Ascending(held, arrived) && arrived <= later
    ensures R.Ascending(held, later)
  {
  }

  lemma FlowKeeps(s: I.State, e: I.Step)
    requires I.Sound(s) && I.QuotaKept(s) && I.TurnedAwayKnown(s) && I.Enabled(s, e) && !e.PublishStep?
    ensures var z := I.Apply(s, e);
            I.Sound(z) && I.QuotaKept(z) && I.TurnedAwayKnown(z) && z.seen == s.seen && z.turnedAway == s.turnedAway
  {
    hide *;
    I.StepValid(s, e);
    I.StepKnown(s, e);
    NotPublish(s, e);
    I.OtherSeen(s, e);
  }

  lemma NotPublish(s: I.State, e: I.Step)
    requires !e.PublishStep?
    ensures !e.PublishStep?
  {
  }

  lemma OtherLinked(s: System, step: I.Step, route: I.Msg -> R.Route)
    requires Linked(s, route) && Enabled(s, OtherStep(step), route)
    ensures Linked(Apply(s, OtherStep(step), route), route)
  {
    hide I.Sound, I.QuotaKept, I.TurnedAwayKnown, R.Sound, R.Ascending, R.Held, Mirrors, Apart, I.Enabled, I.Apply;
    FlowKeeps(s.flow, step);
    I.OtherHolds(s.flow, step);
  }

  /** Steps of a pass that hand nothing on. */
  lemma PassLinked(s: System, e: Step, route: I.Msg -> R.Route)
    requires Linked(s, route) && Enabled(s, e, route) && (e.BeginStep? || e.SwapStep? || e.StayStep?)
    ensures Linked(Apply(s, e, route), route)
  {
    var z := Apply(s, e, route);
    PassIs(s, e, route);
    hide R.Held, I.Sound, I.QuotaKept, I.TurnedAwayKnown, R.Sound, R.Ascending, Mirrors, Apart, Enabled, Apply;
  }

  lemma PassIs(s: System, e: Step, route: I.Msg -> R.Route)
    requires LeavingKnown(s, route) && Enabled(s, e, route) && (e.BeginStep? || e.SwapStep? || e.StayStep?)
    ensures var z := Apply(s, e, route);
            && z == s.(buffer := z.buffer) && R.Held(z.buffer) == R.Held(s.buffer) && R.Sound(z.buffer) == R.Sound(s.buffer)
            && z.buffer.arrived == s.buffer.arrived && s.leaving.None? && z.buffer.pass.Some?
            && z.buffer.pass.value.delivering.None? && (s.flow.replay.Buffered? || s.flow.closed)
  {
    var f := if e.BeginStep? then R.BeginStep else if e.SwapStep? then R.SwapStep
             else R.TurnStep(if e.full then R.Full else R.Nobody);
    var z := Apply(s, e, route);
    assert R.Enabled(s.buffer, f) && z == s.(buffer := R.Apply(s.buffer, f));
    assert z.buffer.pass.Some? && z.buffer.pass.value.delivering.None?;
    R.MovesKeepHeld(s.buffer, f);
    hide R.Apply, R.Enabled, R.Held, Enabled, Apply;
    SameSound(s.buffer, z.buffer);
  }

  lemma SameSound(b: R.State, c: R.State)
    requires R.Held(c) == R.Held(b) && c == b.(publishes := c.publishes, pass := c.pass)
    ensures R.Sound(c) == R.Sound(b)
  {
    hide R.Held, R.Agree;
  }

  /** A message on its way out is held until its delivery returns; it then leaves the middle, and the pass stays open. */
  lemma TurnIs(b: R.State, f: R.Finding)
    requires PassOpen(b) && b.pass.value.pending != [] && (f.Claimed? || f.Room?)
    ensures var y := R.Turn(b, f);
            && R.Held(y) == R.Held(b) && R.Sound(y) == R.Sound(b) && y.arrived == b.arrived
            && R.Delivering(y) && y.pass.value.delivering.value.publish == b.pass.value.pending[0]
  {
    R.MovesKeepHeld(b, R.TurnStep(f));
    SameSound(b, R.Turn(b, f));
  }

  lemma DoneIs(y: R.State)
    requires R.Sound(y) && R.Delivering(y)
    ensures var z := R.Delivered(y); var pass := y.pass.value; var p := pass.delivering.value.publish;
            && R.Sound(z) && z.pass.Some? && z.pass.value.delivering.None? && z.arrived == y.arrived
            && R.Held(y) == pass.unmatched + [p] + (pass.pending + y.publishes)
            && R.Held(z) == pass.unmatched + (pass.pending + y.publishes)
  {
    R.DeliveredAgrees(y);
    R.AroundDelivery(y);
    R.HeldAfterDelivery(y);
    hide R.Held, R.Sound;
  }

  lemma GoLinked(s: System, m: I.Msg, r: I.Recipient, detached: bool, route: I.Msg -> R.Route)
    requires Linked(s, route) && Enabled(s, GoStep(m, r, detached), route)
    ensures Linked(Apply(s, GoStep(m, r, detached), route), route)
  {
    var z := Apply(s, GoStep(m, r, detached), route);
    var y := R.Turn(s.buffer, FindingFor(r));
    hide *;
    LinkedParts(s, route);
    StillUp(s, GoStep(m, r, detached), route);
    GoIs(s, m, r, detached, route);
    FlowKeeps(s.flow, I.DrainStep(m, r, detached));
    HeldSeen(s.flow, m);
    HeldEarlier(s, route);
    AllAre(s);
    AllAre(z);
    if Sends(m, r, detached) {
      assert All(z) == All(s);
      LeavingStarts(z, m, route);
    } else {
      DoneIs(y);
      var left := y.pass.value;
      MirrorRemoved(All(s), left.unmatched, m, left.pending + y.publishes, s.buffer.arrived, route);
      assert All(z) == All(s) - {m};
      NobodyLeaving(z, route);
    }
    LinkedFrom(z, route);
  }

  lemma StillUp(s: System, e: Step, route: I.Msg -> R.Route)
    requires Enabled(s, e, route)
    ensures !s.flow.closed
  {
  }

  /** The buffer turns to the head of its pass; the flow hands it on; it leaves at once unless an acknowledgement is sent. */
  lemma GoIs(s: System, m: I.Msg, r: I.Recipient, detached: bool, route: I.Msg -> R.Route)
    requires R.Sound(s.buffer) && LeavingKnown(s, route) && Enabled(s, GoStep(m, r, detached), route)
    ensures var z := Apply(s, GoStep(m, r, detached), route); var y := R.Turn(s.buffer, FindingFor(r));
            && I.Enabled(s.flow, I.DrainStep(m, r, detached)) && z.flow == I.Apply(s.flow, I.DrainStep(m, r, detached))
            && m in s.flow.held && s.leaving.None? && z.flow.held == s.flow.held - {m} && z.flow.arrived == s.flow.arrived
            && (z.flow.closed || z.flow.replay.Buffered?)
            && z.leaving == (if Sends(m, r, detached) then Some(m) else None)
            && z.buffer == (if Sends(m, r, detached) then y else R.Delivered(y))
            && R.Held(y) == R.Held(s.buffer) && R.Sound(y) && y.arrived == s.buffer.arrived
            && R.Delivering(y) && y.pass.Some? && y.pass.value.delivering.Some?
            && y.pass.value.delivering.value.publish == ToPublish(m, route)
  {
    I.DrainHolds(s.flow, m, r, detached);
    TurnIs(s.buffer, FindingFor(r));
    hide I.Drain, R.Turn, R.Delivered, R.Held, R.Sound, ToPublish, Sends;
  }

  lemma LeavingStarts(z: System, m: I.Msg, route: I.Msg -> R.Route)
    requires z.leaving == Some(m) && R.Delivering(z.buffer) && z.buffer.pass.value.delivering.value.publish == ToPublish(m, route)
    requires m !in z.flow.held && m.serial < z.flow.arrived && m in z.flow.seen && m !in z.flow.turnedAway
    requires z.flow.closed || z.flow.replay.Buffered?
    ensures LeavingKnown(z, route)
  {
    hide ToPublish;
  }

  lemma NobodyLeaving(z: System, route: I.Msg -> R.Route)
    requires z.leaving.None? && (z.buffer.pass.Some? ==> z.buffer.pass.value.delivering.None?)
    requires z.buffer.pass.None? || z.flow.closed || z.flow.replay.Buffered?
    ensures LeavingKnown(z, route)
  {
  }

  lemma HeldSeen(flow: I.State, m: I.Msg)
    requires I.TurnedAwayKnown(flow) && m in flow.held
    ensures m in flow.seen && m !in flow.turnedAway
  {
    assert I.OnRecord(flow, m);
    hide I.OnRecord, I.Repeats;
  }

  lemma DoneLinked(s: System, route: I.Msg -> R.Route)
    requires Linked(s, route) && Enabled(s, DoneStep, route)
    ensures Linked(Apply(s, DoneStep, route), route)
  {
    var z := Apply(s, DoneStep, route);
    var m := s.leaving.value;
    hide I.Sound, I.QuotaKept, I.TurnedAwayKnown, R.Sound, R.Ascending, R.Held, Mirrors, Apart, R.Delivered;
    LinkedParts(s, route);
    DoneIs(s.buffer);
    var pass := s.buffer.pass.value;
    MirrorRemoved(All(s), pass.unmatched, m, pass.pending + s.buffer.publishes, s.buffer.arrived, route);
    assert All(z) == All(s) - {m};
  }

  lemma CloseIs(b: R.State)
    requires R.Enabled(b, R.EndStep)
    ensures R.Held(R.Close(b)) == R.Held(b) && R.Close(b).pass.None? && R.Close(b).arrived == b.arrived
    ensures R.Sound(R.Close(b)) == R.Sound(b)
    ensures R.Sound(R.Empty(R.Close(b))) && R.Held(R.Empty(R.Close(b))) == []
  {
    R.MovesKeepHeld(b, R.EndStep);
    SameSound(b, R.Close(b));
    R.ClearAgrees(R.Close(b));
  }

  lemma EndLinked(s: System, e: Step, route: I.Msg -> R.Route)
    requires Linked(s, route) && Enabled(s, e, route) && (e.EndStep? || e.ExpireStep?)
    ensures Linked(Apply(s, e, route), route)
  {
    hide *;
    var z := Apply(s, e, route);
    var step := if e.EndStep? then I.DrainEndStep else I.ExpireStep;
    LinkedParts(s, route);
    EndIs(s, e, route);
    CloseIs(s.buffer);
    NothingMirrored(route);
    FlowKeeps(s.flow, step);
    AllAre(s);
    AllAre(z);
    assert e.EndStep? ==> All(z) == All(s);
    assert e.ExpireStep? ==> All(z) == {};
    NobodyLeaving(z, route);
    LinkedFrom(z, route);
  }

  lemma EndIs(s: System, e: Step, route: I.Msg -> R.Route)
    requires LeavingKnown(s, route) && Enabled(s, e, route) && (e.EndStep? || e.ExpireStep?)
    ensures var z := Apply(s, e, route); var step := if e.EndStep? then I.DrainEndStep else I.ExpireStep;
            && !s.flow.closed && R.Enabled(s.buffer, R.EndStep) && I.Enabled(s.flow, step) && z.flow == I.Apply(s.flow, step)
            && s.leaving.None? && z.leaving.None? && z.buffer.pass.None? && z.flow.arrived == s.flow.arrived
            && z.buffer == (if e.EndStep? then R.Close(s.buffer) else R.Empty(R.Close(s.buffer)))
            && z.buffer.arrived == s.buffer.arrived && z.flow.held == (if e.EndStep? then s.flow.held else {})
  {
  }

  lemma NothingMirrored(route: I.Msg -> R.Route)
    ensures Mirrors({}, [], route) && Apart({}) && forall arrived: nat :: R.Ascending([], arrived)
  {
  }

  /** Clearing leaves flow and buffer with what the pass has in its hands. */
  lemma ClearIs(s: System, route: I.Msg -> R.Route)
    requires Enabled(s, ClearStep, route)
    ensures var z := Apply(s, ClearStep, route); var a := R.Locals(s.buffer.pass);
            && R.Held(s.buffer) == a + s.buffer.publishes && R.Held(z.buffer) == a
            && z.flow.held == InHands(s, route) && z.flow.closed && z.flow.arrived == s.flow.arrived && z.leaving == s.leaving
            && z.buffer.arrived == s.buffer.arrived && z.buffer.pass == s.buffer.pass
            && I.Enabled(s.flow, I.ClearStep(InHands(s, route))) && z.flow == I.Apply(s.flow, I.ClearStep(InHands(s, route)))
            && InHands(s, route) == set m | m in s.flow.held && ToPublish(m, route) in a
  {
    assert s.flow.held - (s.flow.held - InHands(s, route)) == InHands(s, route);
    hide R.Locals, ToPublish;
  }

  lemma ClearLinked(s: System, route: I.Msg -> R.Route)
    requires Linked(s, route) && Enabled(s, ClearStep, route)
    ensures Linked(Apply(s, ClearStep, route), route)
  {
    hide *;
    var z := Apply(s, ClearStep, route);
    var a := R.Locals(s.buffer.pass);
    LinkedParts(s, route);
    LeavingLocal(s, route);
    ClearIs(s, route);
    MirrorCut(All(s), a, s.buffer.publishes, s.buffer.arrived, route);
    FlowKeeps(s.flow, I.ClearStep(InHands(s, route)));
    AllAre(s);
    AllAre(z);
    assert All(z) == set m | m in All(s) && ToPublish(m, route) in a;
    LeavingAfterClear(s, z, route);
    LinkedFrom(z, route);
  }

  lemma LeavingAfterClear(s: System, z: System, route: I.Msg -> R.Route)
    requires LeavingKnown(s, route) && z.leaving == s.leaving && z.buffer.pass == s.buffer.pass && z.flow.closed
    requires z.flow.held <= s.flow.held && z.flow.arrived == s.flow.arrived && z.flow.seen == s.flow.seen
    requires z.flow.turnedAway == s.flow.turnedAway
    ensures LeavingKnown(z, route)
  {
  }

  /** The message that is leaving is among the locals of the pass. */
  lemma LeavingLocal(s: System, route: I.Msg -> R.Route)
    requires LeavingKnown(s, route)
    ensures s.leaving.Some? ==> ToPublish(s.leaving.value, route) in R.Locals(s.buffer.pass)
  {
  }

  lemma StepLinked(s: System, e: Step, route: I.Msg -> R.Route)
    requires Linked(s, route) && Enabled(s, e, route)
    ensures Linked(Apply(s, e, route), route)
  {
    hide Linked, Enabled, Apply;
    match e
    case PublishStep(m, r, detached) => PublishLinked(s, m, r, detached, route);
    case OtherStep(step) => OtherLinked(s, step, route);
    case GoStep(m, r, detached) => GoLinked(s, m, r, detached, route);
    case DoneStep => DoneLinked(s, route);
    case EndStep => EndLinked(s, e, route);
    case ExpireStep => EndLinked(s, e, route);
    case ClearStep => ClearLinked(s, route);
    case _ => PassLinked(s, e, route);
  }

  // Whole runs.

  function Initial(limit: Option<nat>, sessionPresent: bool, size: nat): System {
    System(I.Initial(limit, sessionPresent), R.Initial(size), None)
  }

  ghost predicate Runs(s: System, steps: seq<Step>, end: System, route: I.Msg -> R.Route)
    decreases |steps|
  {
    if steps == [] then s == end
    else Enabled(s, steps[0], route) && Runs(Apply(s, steps[0], route), steps[1..], end, route)
  }

  lemma {:induction false} RunsLinked(s: System, steps: seq<Step>, end: System, route: I.Msg -> R.Route)
    requires Linked(s, route) && Runs(s, steps, end, route)
    ensures Linked(end, route)
    decreases |steps|
  {
    hide Linked, Enabled, Apply;
    if steps != [] {
      StepLinked(s, steps[0], route);
      RunsLinked(Apply(s, steps[0], route), steps[1..], end, route);
    }
  }

  lemma InitialLinked(limit: Option<nat>, sessionPresent: bool, size: nat, route: I.Msg -> R.Route)
    ensures Linked(Initial(limit, sessionPresent, size), route)
  {
    hide *;
    var s := Initial(limit, sessionPresent, size);
    InitialIs(limit, sessionPresent, size, route);
    I.InitialSound(limit, sessionPresent);
    R.InitialSound(size);
    NothingMirrored(route);
    LinkedFrom(s, route);
  }

  lemma InitialIs(limit: Option<nat>, sessionPresent: bool, size: nat, route: I.Msg -> R.Route)
    ensures var s := Initial(limit, sessionPresent, size);
            && s.flow == I.Initial(limit, sessionPresent) && s.buffer == R.Initial(size) && s.buffer.arrived == s.flow.arrived == 0
            && R.Held(s.buffer) == [] && All(s) == {} && LeavingKnown(s, route) && I.TurnedAwayKnown(s.flow)
  {
    var s := Initial(limit, sessionPresent, size);
    assert R.Held(s.buffer) == [] && All(s) == {};
  }

  lemma MirrorOf(held: set<I.Msg>, buffered: seq<R.Publish>, p: R.Publish, route: I.Msg -> R.Route) returns (m: I.Msg)
    requires Mirrors(held, buffered, route) && p in buffered
    ensures m in held && ToPublish(m, route) == p
  {
    m :| m in held && ToPublish(m, route) == p;
  }

  lemma NoneMirrored(held: set<I.Msg>, route: I.Msg -> R.Route)
    requires Mirrors(held, [], route)
    ensures held == {}
  {
    assert forall m :: m !in held;
  }

  /** There are as many messages held as the buffer counts. */
  lemma {:induction false} MirrorSize(held: set<I.Msg>, buffered: seq<R.Publish>, arrived: nat, route: I.Msg -> R.Route)
    requires Mirrors(held, buffered, route) && Apart(held) && R.Ascending(buffered, arrived)
    ensures |held| == |buffered|
    decreases |buffered|
  {
    hide Mirrors, Apart, R.Ascending, ToPublish;
    if buffered == [] {
      NoneMirrored(held, route);
    } else {
      var front, p := buffered[..|buffered| - 1], buffered[|buffered| - 1];
      var m := MirrorOf(held, buffered, p, route);
      assert buffered == front + [p] + [] && front + [] == front;
      MirrorRemoved(held, front, m, [], arrived, route);
      MirrorSize(held - {m}, front, arrived, route);
    }
  }

  /**
   * In every run of flow and buffer together, while the connection lives: the buffer holds exactly the messages the
   * flow holds and the one that is leaving, in arrival order; it answers for an identifier exactly if one of them has it;
   * it counts them, and a positive size bounds them; and it stays in place while it holds any.
   */
  lemma HeldIsBuffered(limit: Option<nat>, sessionPresent: bool, size: nat, steps: seq<Step>, end: System, route: I.Msg -> R.Route)
    requires Runs(Initial(limit, sessionPresent, size), steps, end, route) && !end.flow.closed
    ensures Mirrors(All(end), R.Held(end.buffer), route) && R.Ascending(R.Held(end.buffer), end.flow.arrived)
    ensures forall pid :: I.HeldId(All(end), pid) <==> pid in end.buffer.packetIds
    ensures end.buffer.count == |All(end)| && (end.buffer.limit > 0 ==> |All(end)| <= end.buffer.limit)
    ensures All(end) != {} ==> end.flow.replay.Buffered?
  {
    InitialLinked(limit, sessionPresent, size, route);
    RunsLinked(Initial(limit, sessionPresent, size), steps, end, route);
    hide Runs, I.Sound, I.TurnedAwayKnown, R.Sound, R.Ascending, R.Held, Mirrors, Apart, I.HeldId, Linked, All;
    LinkedParts(end, route);
    AscendingLater(R.Held(end.buffer), end.buffer.arrived, end.flow.arrived);
    forall pid
      ensures I.HeldId(All(end), pid) <==> pid in end.buffer.packetIds
    {
      ContainsAgree(end, route, pid);
    }
    IdsAre(end.buffer);
    MirrorSize(All(end), R.Held(end.buffer), end.buffer.arrived, route);
    I.SoundParts(end.flow);
    InPlace(end, route);
  }

  lemma InPlace(s: System, route: I.Msg -> R.Route)
    requires LeavingKnown(s, route) && !s.flow.closed && (s.flow.held != {} ==> s.flow.replay.Buffered?)
    ensures All(s) != {} ==> s.flow.replay.Buffered?
  {
  }

  /** Somebody with the topic of `m` already waits in the buffer, or is just leaving it. */
  ghost predicate TopicWaits(s: System, m: I.Msg, route: I.Msg -> R.Route) {
    exists n :: n in All(s) && route(n).topic == route(m).topic
  }

  /** The buffer has all the messages it may have. */
  predicate Full(s: System) { s.buffer.limit > 0 && |All(s)| >= s.buffer.limit }

  /**
   * A message the flow takes in on a resumed session waits if and only if no request claims it, nobody subscribes to it
   * or an earlier message on its topic still waits, and the buffer is not full; in a full one it ends the connection.
   */
  lemma WaitsExactly(s: System, m: I.Msg, r: I.Recipient, detached: bool, route: I.Msg -> R.Route)
    requires Linked(s, route) && Enabled(s, PublishStep(m, r, detached), route) && Consults(s, m)
    ensures var z := Apply(s, PublishStep(m, r, detached), route); var must := !r.Request? && (r.Nobody? || TopicWaits(s, m, route));
            && (m in z.flow.held <==> must && !Full(s))
            && (must && Full(s) ==> z.flow.closed)
  {
    hide *;
    LinkedParts(s, route);
    PublishEnabled(s, m, r, detached, route);
    NeverDuplicate(s, m, r, route);
    PublishAgrees(s, m, r, detached, route);
    HeldEarlier(s, route);
    AllAre(s);
    assert m !in s.flow.held;
    IdsAre(s.buffer);
    MirrorSize(All(s), R.Held(s.buffer), s.buffer.arrived, route);
    TopicsAgree(s, m, route);
    ChosenIs(s, m, r, detached, route);
    I.PublishHolds(s.flow, m, Chosen(s, m, r, detached, route));
    VerdictIs(s, m, r, route);
  }

  lemma VerdictIs(s: System, m: I.Msg, r: I.Recipient, route: I.Msg -> R.Route)
    requires Consults(s, m) && !VerdictOn(s, m, r, route).Duplicate? && s.buffer.count == |All(s)|
    ensures var v := VerdictOn(s, m, r, route); var must := !r.Request? && (r.Nobody? || route(m).topic in s.buffer.topics);
            (v.Buffered? <==> must && !Full(s)) && (v.Overflow? <==> must && Full(s)) && I.Selects(s.flow, m) && !Mistaken(s, m)
  {
    hide I.Selects, Mistaken, All;
  }

  lemma TopicsAgree(s: System, m: I.Msg, route: I.Msg -> R.Route)
    requires Linked(s, route) && !s.flow.closed
    ensures TopicWaits(s, m, route) <==> route(m).topic in s.buffer.topics
  {
    LinkedParts(s, route);
    IdsAre(s.buffer);
    var held, all := R.Held(s.buffer), All(s);
    hide Linked, I.Sound, I.TurnedAwayKnown, R.Sound, R.Held, R.Ascending, Apart, All, LeavingKnown;
    if n :| n in all && route(n).topic == route(m).topic {
      assert ToPublish(n, route) in held;
    }
    if route(m).topic in s.buffer.topics {
      var p :| p in held && p.topic == route(m).topic;
      var n :| n in all && ToPublish(n, route) == p;
    }
  }

  // What is lost.

  /** The message was turned away, and the connection goes on. */
  predicate Dropped(z: I.State, m: I.Msg) { m in z.turnedAway && !z.closed }

  /** The identifier is that of a message whose acknowledgement is being sent. */
  predicate InHand(s: System, pid: int) { s.leaving.Some? && s.leaving.value.qos > 0 && s.leaving.value.pid == pid }

  /** The broker uses the identifier of a QoS 1/2 message only once the last PUBACK or PUBCOMP under it has been sent. */
  ghost predicate Reuses(s: System, e: Step) { e.PublishStep? && e.msg.qos > 0 ==> I.IdFinished(s.flow, e.msg.pid) }

  /** A QoS 1/2 PUBLISH comes while the drain still has the message that had its identifier. */
  predicate Caught(s: System, e: Step) { e.PublishStep? && e.msg.qos > 0 && InHand(s, e.msg.pid) }

  lemma FinishedSelects(flow: I.State, m: I.Msg)
    requires I.Sound(flow) && 0 <= m.qos <= 2 && (m.qos > 0 ==> I.IdFinished(flow, m.pid))
    ensures I.Selects(flow, m) || I.HoldQuota(flow.(arrived := flow.arrived + 1, seen := flow.seen + {m}), m.pid).closed
  {
    I.SoundParts(flow);
    if m.qos > 0 {
      assert m.pid in flow.inflight ==> I.Unfinished(flow.inflight[m.pid].msg, I.PlaceOf(flow, flow.inflight[m.pid].msg));
      assert m.pid in flow.pendingAck ==> I.Unfinished(flow.pendingAck[m.pid], I.PlaceOf(flow, flow.pendingAck[m.pid]));
      assert forall n: I.Msg :: n in flow.held && n.qos > 0 ==> I.Unfinished(n, I.PlaceOf(flow, n));
    }
    hide I.Sound, I.IdsDisjoint, I.Justified;
  }

  lemma NotYetTurnedAway(flow: I.State, m: I.Msg)
    requires I.TurnedAwayKnown(flow) && m.serial == flow.arrived
    ensures m !in flow.turnedAway
  {
    hide I.OnRecord, I.Repeats;
  }

  /** What reaches the selection of a recipient is taken in, or ends the connection. */
  lemma TakenUnlessClosed(flow: I.State, m: I.Msg, sel: I.Selection)
    requires 0 <= m.qos <= 2
    requires I.Selects(flow, m) || I.HoldQuota(flow.(arrived := flow.arrived + 1, seen := flow.seen + {m}), m.pid).closed
    ensures I.Publish(flow, m, sel).turnedAway == flow.turnedAway || I.Publish(flow, m, sel).closed
  {
    var t := flow.(arrived := flow.arrived + 1, seen := flow.seen + {m});
    I.PublishIs(flow, m, sel);
    I.RouteTurnsAway(if m.qos == 0 then t else I.HoldQuota(t, m.pid), m, sel);
    hide I.Publish, I.Route, I.HeldId;
  }

  /** With a broker that reuses identifiers that way, a step turns a message away exactly if it is caught. */
  lemma StepTurnsAway(s: System, e: Step, route: I.Msg -> R.Route)
    requires Linked(s, route) && Enabled(s, e, route) && Reuses(s, e) && !Apply(s, e, route).flow.closed
    ensures Apply(s, e, route).flow.turnedAway == s.flow.turnedAway + if Caught(s, e) then {e.msg} else {}
    ensures Caught(s, e) ==> e.msg !in s.flow.turnedAway
  {
    if e.PublishStep? {
      PublishTurnsAway(s, e.msg, e.recipient, e.detached, route);
    } else {
      OtherTurnsAway(s, e, route);
    }
    hide Linked, Enabled, Apply, InHand, I.IdFinished;
  }

  lemma PublishTurnsAway(s: System, m: I.Msg, r: I.Recipient, detached: bool, route: I.Msg -> R.Route)
    requires var e := PublishStep(m, r, detached); Linked(s, route) && Enabled(s, e, route) && Reuses(s, e)
    ensures var z := Apply(s, PublishStep(m, r, detached), route); var caught := m.qos > 0 && InHand(s, m.pid);
            && (z.flow.closed || z.flow.turnedAway == s.flow.turnedAway + if caught then {m} else {})
            && m !in s.flow.turnedAway
            && (caught && !z.flow.closed ==> z.flow.trace == s.flow.trace && z.flow.held == s.flow.held && z.buffer == s.buffer &&
                                             z.flow.unacked == s.flow.unacked + {m.pid})
  {
    hide *;
    LinkedParts(s, route);
    PublishEnabled(s, m, r, detached, route);
    PublishAgrees(s, m, r, detached, route);
    MistakenIs(s, m, r, detached, route);
    FinishedSelects(s.flow, m);
    NotYetTurnedAway(s.flow, m);
    if Mistaken(s, m) {
      LoseIs(s.flow, m);
    } else {
      TakenUnlessClosed(s.flow, m, Chosen(s, m, r, detached, route));
      if m.qos > 0 && !I.Selects(s.flow, m) {
        QuotaCloses(s.flow, m, Chosen(s, m, r, detached, route));
      }
    }
  }

  lemma MistakenIs(s: System, m: I.Msg, r: I.Recipient, detached: bool, route: I.Msg -> R.Route)
    requires Enabled(s, PublishStep(m, r, detached), route)
    ensures Mistaken(s, m) <==> I.Selects(s.flow, m) && m.qos > 0 && InHand(s, m.pid)
    ensures Mistaken(s, m) ==> Apply(s, PublishStep(m, r, detached), route).buffer == s.buffer
    ensures Reuses(s, PublishStep(m, r, detached)) == (m.qos > 0 ==> I.IdFinished(s.flow, m.pid))
  {
    hide I.Selects, I.IdFinished, R.Accepting, Lose, I.Publish;
  }

  /** A PUBLISH past the quota ends the connection. */
  lemma QuotaCloses(flow: I.State, m: I.Msg, sel: I.Selection)
    requires m.qos > 0 && I.HoldQuota(flow.(arrived := flow.arrived + 1, seen := flow.seen + {m}), m.pid).closed
    ensures I.Publish(flow, m, sel).closed
  {
    hide I.Route, I.HeldId;
  }

  lemma OtherTurnsAway(s: System, e: Step, route: I.Msg -> R.Route)
    requires Enabled(s, e, route) && !e.PublishStep?
    ensures Apply(s, e, route).flow.turnedAway == s.flow.turnedAway
  {
    hide I.Apply, I.Enabled, R.Swap, R.Turn, R.Delivered, R.BeginPass, R.Close, R.Empty, I.Drain, InHands;
    match e
    case OtherStep(step) => I.OtherSeen(s.flow, step);
    case GoStep(m, r, detached) => I.OtherSeen(s.flow, I.DrainStep(m, r, detached));
    case EndStep => I.OtherSeen(s.flow, I.DrainEndStep);
    case ExpireStep => I.OtherSeen(s.flow, I.ExpireStep);
    case ClearStep =>
      ClearIs(s, route);
      I.OtherSeen(s.flow, I.ClearStep(InHands(s, route)));
    case _ =>
  }

  /**
   * A PUBLISH under an identifier the broker may use again, its last PUBACK or PUBCOMP sent, is dropped if and only if the
   * message that had the identifier is still in the hands of the drain; it then costs a unit of the quota and does no more.
   */
  lemma ReuseLostExactly(s: System, m: I.Msg, r: I.Recipient, detached: bool, route: I.Msg -> R.Route)
    requires Linked(s, route) && Enabled(s, PublishStep(m, r, detached), route) && m.qos > 0 && I.IdFinished(s.flow, m.pid)
    ensures var z := Apply(s, PublishStep(m, r, detached), route);
            && (!z.flow.closed ==> (Dropped(z.flow, m) <==> InHand(s, m.pid)))
            && (Dropped(z.flow, m) ==> z.flow.trace == s.flow.trace && z.flow.held == s.flow.held && z.buffer == s.buffer &&
                                       z.flow.unacked == s.flow.unacked + {m.pid})
  {
    PublishTurnsAway(s, m, r, detached, route);
    hide Linked, Enabled, Apply, InHand, I.IdFinished;
  }

  ghost predicate ReusesThroughout(s: System, steps: seq<Step>, route: I.Msg -> R.Route)
    decreases |steps|
  {
    steps != [] && Enabled(s, steps[0], route) ==>
      Reuses(s, steps[0]) && ReusesThroughout(Apply(s, steps[0], route), steps[1..], route)
  }

  ghost predicate NeverCaught(s: System, steps: seq<Step>, route: I.Msg -> R.Route)
    decreases |steps|
  {
    steps != [] && Enabled(s, steps[0], route) ==>
      !Caught(s, steps[0]) && NeverCaught(Apply(s, steps[0], route), steps[1..], route)
  }

  lemma {:induction false} RunsTurnAway(s: System, steps: seq<Step>, end: System, route: I.Msg -> R.Route)
    requires Linked(s, route) && Runs(s, steps, end, route) && ReusesThroughout(s, steps, route) && !end.flow.closed
    ensures s.flow.turnedAway <= end.flow.turnedAway
    ensures end.flow.turnedAway == s.flow.turnedAway <==> NeverCaught(s, steps, route)
    decreases |steps|
  {
    hide Linked, Enabled, Apply, Reuses, Caught;
    if steps != [] {
      var y := Apply(s, steps[0], route);
      StepLinked(s, steps[0], route);
      UpBefore(y, steps[1..], end, route);
      StepTurnsAway(s, steps[0], route);
      RunsTurnAway(y, steps[1..], end, route);
      if Caught(s, steps[0]) {
        CaughtMessage(s, steps[0]);
      }
    }
  }

  lemma CaughtMessage(s: System, e: Step)
    requires Caught(s, e)
    ensures e.PublishStep?
  {
  }

  /** A connection that is up at the end of a run was up before. */
  lemma UpBefore(s: System, steps: seq<Step>, end: System, route: I.Msg -> R.Route)
    requires Runs(s, steps, end, route) && !end.flow.closed
    ensures !s.flow.closed
  {
    hide Apply;
  }

  /**
   * Over a whole run of flow and buffer on a connection that stays up, with a broker that reuses an identifier only after
   * its last PUBACK or PUBCOMP: every message is taken in if and only if no QoS 1/2 PUBLISH comes while the drain still
   * has the message that had its identifier.
   */
  lemma TakenInExactly(limit: Option<nat>, sessionPresent: bool, size: nat, steps: seq<Step>, end: System, route: I.Msg -> R.Route)
    requires var s := Initial(limit, sessionPresent, size); Runs(s, steps, end, route) && ReusesThroughout(s, steps, route)
    requires !end.flow.closed
    ensures end.flow.turnedAway == {} <==> NeverCaught(Initial(limit, sessionPresent, size), steps, route)
  {
    InitialLinked(limit, sessionPresent, size, route);
    RunsTurnAway(Initial(limit, sessionPresent, size), steps, end, route);
    hide Runs, Linked, ReusesThroughout, NeverCaught;
  }

  // A message lost to the reuse of an identifier.

  const FIRST := I.Msg(0, 1, 7)
  const SECOND := I.Msg(1, 1, 7)
  const WHOLE := I.Subscription(true)

  function OneTopic(): I.Msg -> R.Route { m => R.Route("t", None) }

  const FIRST_HELD := R.Publish(0, "t", None, Some(7), 1)

  /** The first message is held for want of a recipient, and a drain finds one: it is delivered, and PUBACK is under way. */
  const HELD_FLOW := I.Initial(None, true).(unacked := {7}, held := {FIRST}, replay := I.Buffered, arrived := 1, seen := {FIRST})
  const HELD_BUFFER := R.Initial(0).(publishes := [FIRST_HELD], packetIds := {7}, topics := map["t" := 1], count := 1, arrived := 1,
                                     buffered := [FIRST_HELD])
  const SENT_FLOW := HELD_FLOW.(unacked := {}, held := {}, trace := [I.Enqueued(FIRST), I.PubAckSent(FIRST)])
  const SENT_BUFFER := HELD_BUFFER.(publishes := [], pass := Some(R.Pass([], Some(R.Delivery(FIRST_HELD, false)), [], {})))

  /** The second message came under the same identifier, and nobody has it. */
  const LOST_FLOW := SENT_FLOW.(unacked := {7}, arrived := 2, seen := {FIRST, SECOND}, turnedAway := {SECOND})
  const EMPTY_BUFFER := SENT_BUFFER.(packetIds := {}, topics := map[], count := 0, pass := None,
                                     handed := [R.Delivery(FIRST_HELD, false)], released := [FIRST_HELD])

  /** A run with one more step in front. */
  lemma RunsBack(s: System, e: Step, y: System, steps: seq<Step>, end: System, route: I.Msg -> R.Route)
    requires Enabled(s, e, route) && Apply(s, e, route) == y && Runs(y, steps, end, route)
    ensures Runs(s, [e] + steps, end, route)
  {
    assert ([e] + steps)[0] == e && ([e] + steps)[1..] == steps;
    hide Enabled, Apply;
  }

  lemma FirstIsHeld()
    ensures var e := PublishStep(FIRST, I.Nobody, false); var s := Initial(None, true, 0);
            Enabled(s, e, OneTopic()) && Apply(s, e, OneTopic()) == System(HELD_FLOW, HELD_BUFFER, None)
  {
    var s := Initial(None, true, 0);
    var t := s.flow.(arrived := 1, seen := {FIRST});
    assert I.HoldQuota(t, 7).unacked == {7} && ToPublish(FIRST, OneTopic()) == FIRST_HELD;
    assert I.Publish(s.flow, FIRST, I.Hold) == HELD_FLOW;
    assert R.Accepting(s.buffer, FIRST_HELD, R.NoRecipient) == HELD_BUFFER;
  }

  lemma FirstLeaves()
    ensures var s := System(HELD_FLOW, HELD_BUFFER, None);
            Runs(s, [BeginStep, SwapStep, GoStep(FIRST, WHOLE, false)], System(SENT_FLOW, SENT_BUFFER, Some(FIRST)), OneTopic())
  {
    var s := System(HELD_FLOW, HELD_BUFFER, None);
    var begun := s.(buffer := HELD_BUFFER.(pass := Some(R.Pass([], None, [], {}))));
    var swapped := s.(buffer := HELD_BUFFER.(publishes := [], pass := Some(R.Pass([], None, [FIRST_HELD], {}))));
    var sent := System(SENT_FLOW, SENT_BUFFER, Some(FIRST));
    assert ToPublish(FIRST, OneTopic()) == FIRST_HELD;
    assert swapped.buffer.pass.value.pending[1..] == [];
    assert R.Turn(swapped.buffer, R.Room) == SENT_BUFFER;
    assert HELD_FLOW.held - {FIRST} == {} && HELD_FLOW.unacked - {7} == {};
    assert I.Arrive(HELD_FLOW.(held := {}), FIRST, true) == SENT_FLOW;
    assert I.Drain(HELD_FLOW, FIRST, WHOLE, false) == SENT_FLOW;
    RunsBack(swapped, GoStep(FIRST, WHOLE, false), sent, [], sent, OneTopic());
    RunsBack(begun, SwapStep, swapped, [GoStep(FIRST, WHOLE, false)], sent, OneTopic());
    RunsBack(s, BeginStep, begun, [SwapStep, GoStep(FIRST, WHOLE, false)], sent, OneTopic());
  }

  lemma SecondIsLost()
    ensures var s := System(SENT_FLOW, SENT_BUFFER, Some(FIRST));
            Runs(s, [PublishStep(SECOND, WHOLE, false), DoneStep, EndStep],
                 System(LOST_FLOW.(replay := I.Idle), EMPTY_BUFFER, None), OneTopic())
  {
    var s := System(SENT_FLOW, SENT_BUFFER, Some(FIRST));
    var lost := s.(flow := LOST_FLOW);
    var done := System(LOST_FLOW, EMPTY_BUFFER.(pass := Some(R.Pass([], None, [], {}))), None);
    var end := System(LOST_FLOW.(replay := I.Idle), EMPTY_BUFFER, None);
    assert Mistaken(s, SECOND);
    assert Lose(SENT_FLOW, SECOND) == LOST_FLOW;
    assert R.Delivered(SENT_BUFFER) == done.buffer;
    RunsBack(done, EndStep, end, [], end, OneTopic());
    RunsBack(lost, DoneStep, done, [EndStep], end, OneTopic());
    RunsBack(s, PublishStep(SECOND, WHOLE, false), lost, [DoneStep, EndStep], end, OneTopic());
  }

  /**
   * On a resumed session a QoS 1 message is held, then handed on by a drain. While its PUBACK is being sent the broker uses
   * the identifier again: the second message is dropped, no event tells of it, and it keeps its unit of the quota.
   */
  lemma ReuseInHandLoses() returns (steps: seq<Step>, end: System)
    ensures Runs(Initial(None, true, 0), steps, end, OneTopic()) && !end.flow.closed
    ensures end.flow.seen == {FIRST, SECOND} && end.flow.turnedAway == {SECOND} && end.flow.held == {} && end.flow.unacked == {7}
    ensures end.flow.trace == [I.Enqueued(FIRST), I.PubAckSent(FIRST)] && R.Held(end.buffer) == [] && end.leaving.None?
  {
    end := System(LOST_FLOW.(replay := I.Idle), EMPTY_BUFFER, None);
    var opening := [PublishStep(FIRST, I.Nobody, false)];
    var handing := [BeginStep, SwapStep, GoStep(FIRST, WHOLE, false)];
    var losing := [PublishStep(SECOND, WHOLE, false), DoneStep, EndStep];
    var sent := System(SENT_FLOW, SENT_BUFFER, Some(FIRST));
    steps := opening + (handing + losing);
    assert R.Held(end.buffer) == [];
    hide Runs, Apply, Enabled, R.Held;
    FirstIsHeld();
    FirstLeaves();
    SecondIsLost();
    RunsJoin(System(HELD_FLOW, HELD_BUFFER, None), handing, sent, losing, end, OneTopic());
    RunsBack(Initial(None, true, 0), PublishStep(FIRST, I.Nobody, false), System(HELD_FLOW, HELD_BUFFER, None), handing + losing, end,
             OneTopic());
  }

  lemma {:induction false} RunsJoin(s: System, a: seq<Step>, y: System, b: seq<Step>, end: System, route: I.Msg -> R.Route)
    requires Runs(s, a, y, route) && Runs(y, b, end, route)
    ensures Runs(s, a + b, end, route)
    decreases |a|
  {
    hide Enabled, Apply;
    if a == [] {
      assert a + b == b;
    } else {
      RunsJoin(Apply(s, a[0], route), a[1..], y, b, end, route);
      assert a + b == [a[0]] + (a[1..] + b);
      RunsBack(s, a[0], Apply(s, a[0], route), a[1..] + b, end, route);
    }
  }
}
