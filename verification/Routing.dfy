/** Where each message of the inbound flow goes: to the recipient that was selected for it, and to nobody else. */
module Routing {
  import opened Util
  import opened Inbound

  /** What the history says of one message. */
  datatype Heard = Heard(refused: bool, unclaimed: bool, handed: bool, stale: bool, manual: bool, enqueued: bool, withdrawn: bool,
                         lost: bool, accepted: bool)

  const NOTHING := Heard(false, false, false, false, false, false, false, false, false)

  function HeardOf(trace: Trace, m: Msg): Heard {
    Heard(Refused(m) in trace, Unclaimed(m) in trace, Handed(m) in trace, Stale(m) in trace, Manual(m) in trace, Enqueued(m) in trace,
          Withdrawn(m) in trace, Lost(m) in trace, Accepted(m) in trace)
  }

  /** What the records say of it. */
  datatype Spot = Spot(flight: Option<Flight>, pending: bool, callback: bool, wait: Option<bool>)

  const NO_SPOT := Spot(None, false, false, None)

  function SpotOf(s: State, m: Msg): Spot {
    Spot(if m.pid in s.inflight && s.inflight[m.pid].msg == m then Some(s.inflight[m.pid]) else None,
         m.pid in s.pendingAck && s.pendingAck[m.pid] == m,
         m in s.callbacks,
         if s.blocked.Some? && s.blocked.value.msg == m then Some(s.blocked.value.ack) else None)
  }

  /** A PUBREL will hand the message to `r`. */
  predicate AwaitsRelease(p: Spot, m: Msg, r: Recipient) { m.qos == 2 && p.flight == Some(Flight(m, r, false)) }

  /** The message got where it was meant to go, or is on its way there, or its recipient went away meanwhile. */
  predicate Reached(h: Heard, p: Spot, m: Msg, r: Recipient, detached: bool) {
    match r
    case Nobody => h.unclaimed || AwaitsRelease(p, m, r)
    case Request => h.handed || h.stale || AwaitsRelease(p, m, r)
    case Subscription(autoAck) =>
      if detached then h.refused
      else h.enqueued || p.wait.Some? || (autoAck && (AwaitsRelease(p, m, r) || (m.qos == 2 && h.lost)))
  }

  /** Nothing happened to it that belongs to another recipient. */
  predicate OnlyFor(h: Heard, p: Spot, m: Msg, r: Recipient, detached: bool) {
    var sub := r.Subscription? && !detached;
    && (h.refused ==> r.Subscription? && detached)
    && (h.unclaimed ==> r.Nobody?) && (h.handed || h.stale ==> r.Request?)
    && (h.enqueued || h.withdrawn || h.lost || p.wait.Some? ==> sub)
    && (h.manual <==> sub && r == Subscription(false) && m.qos > 0) && (h.lost ==> r == Subscription(true))
    && (h.accepted <==> m.qos == 2 && !(r.Subscription? && detached))
    && (p.flight.Some? ==>
          if p.flight.value.delivered then sub && r == Subscription(false) && h.enqueued
          else p.flight == Some(Flight(m, r, false)) && Auto(r) && !(r.Subscription? && detached))
    && (p.pending || p.callback ==> sub && r == Subscription(false))
    && (p.wait.Some? ==> (p.wait.value <==> m.qos == 1 && r == Subscription(true)))
  }

  ghost predicate SentTo(s: State, m: Msg, r: Recipient, detached: bool) {
    Reached(HeardOf(s.trace, m), SpotOf(s, m), m, r, detached) && OnlyFor(HeardOf(s.trace, m), SpotOf(s, m), m, r, detached)
  }

  /** Nothing has been done with the message. */
  predicate Blank(s: State, m: Msg) { HeardOf(s.trace, m) == NOTHING && SpotOf(s, m) == NO_SPOT }

  predicate SameFor(s: State, z: State, n: Msg) { HeardOf(z.trace, n) == HeardOf(s.trace, n) && SpotOf(z, n) == SpotOf(s, n) }

  /** A step that concerns no message but `m`. */
  ghost predicate OthersSame(s: State, z: State, m: Msg) { forall n: Msg :: n != m ==> SameFor(s, z, n) }

  /** A recipient is found gone only by a step that says so. */
  ghost predicate GoneBy(s: State, z: State, m: Msg, gone: bool, withdrawn: bool) {
    var h, now := HeardOf(s.trace, m), HeardOf(z.trace, m);
    (now.lost || now.stale ==> h.lost || h.stale || gone) && (now.withdrawn ==> h.withdrawn || withdrawn)
  }

  lemma HeardMore(trace: Trace, events: Trace, m: Msg)
    requires AllConcern(events, m)
    ensures forall n: Msg :: n != m ==> HeardOf(trace + events, n) == HeardOf(trace, n)
    ensures var h, now := HeardOf(trace, m), HeardOf(trace + events, m);
            && (now.refused <==> h.refused || Refused(m) in events) && (now.unclaimed <==> h.unclaimed || Unclaimed(m) in events)
            && (now.handed <==> h.handed || Handed(m) in events) && (now.stale <==> h.stale || Stale(m) in events)
            && (now.manual <==> h.manual || Manual(m) in events) && (now.enqueued <==> h.enqueued || Enqueued(m) in events)
            && (now.withdrawn <==> h.withdrawn || Withdrawn(m) in events) && (now.lost <==> h.lost || Lost(m) in events)
            && (now.accepted <==> h.accepted || Accepted(m) in events)
  {
    assert forall e :: e in trace + events <==> e in trace || e in events;
  }

  // What becomes of a message when its recipient is selected.

  lemma WaitSpots(s: State, z: State, m: Msg, ack: bool)
    requires z.inflight == s.inflight && z.pendingAck == s.pendingAck && z.callbacks == s.callbacks
    requires s.blocked.None? && z.blocked == Some(Put(m, ack))
    ensures forall n: Msg :: SpotOf(z, n) == if n == m then SpotOf(s, n).(wait := Some(ack)) else SpotOf(s, n)
  {
  }

  lemma SameSpots(s: State, z: State)
    requires z.inflight == s.inflight && z.pendingAck == s.pendingAck && z.callbacks == s.callbacks && z.blocked == s.blocked
    ensures forall n: Msg :: SpotOf(z, n) == SpotOf(s, n)
  {
  }

  lemma DeliverSends(s: State, m: Msg, r: Recipient, detached: bool, reading: bool)
    requires Blank(s, m) && 0 <= m.qos < 2 && (reading ==> s.blocked.None?) && (m.qos == 1 ==> Auto(r))
    ensures var z := Deliver(s, m, r, detached, m.qos == 1, reading);
            OthersSame(s, z, m) && SentTo(z, m, r, detached) && GoneBy(s, z, m, false, false)
  {
    var z := Deliver(s, m, r, detached, m.qos == 1, reading);
    hide Deliver, HeardOf, SpotOf, AllConcern;
    DeliverIs(s, m, r, detached, m.qos == 1, reading);
    HeardMore(s.trace, DeliverEvents(m, r, detached, m.qos == 1, reading), m);
    if r.Subscription? && !detached && reading {
      WaitSpots(s, z, m, m.qos == 1);
    } else {
      SameSpots(s, z);
    }
  }

  lemma ManualConcern(m: Msg, reading: bool)
    ensures AllConcern(if reading then [Manual(m)] else [Manual(m), Enqueued(m)], m)
    ensures AllConcern(if reading then [Accepted(m), Manual(m)] else [Accepted(m), Manual(m), Enqueued(m)], m)
    ensures AllConcern([Accepted(m), PubRecSent(m)], m) && AllConcern([Refused(m)], m) && AllConcern([AppAcked(m)], m)
  {
  }

  lemma CallbackSpots(s: State, z: State, m: Msg, wait: bool)
    requires z.inflight == s.inflight && z.pendingAck == s.pendingAck && z.callbacks == s.callbacks + {m}
    requires (wait ==> s.blocked.None?) && z.blocked == if wait then Some(Put(m, false)) else s.blocked
    ensures forall n: Msg :: SpotOf(z, n) ==
              if n == m then SpotOf(s, n).(callback := true, wait := if wait then Some(false) else SpotOf(s, n).wait) else SpotOf(s, n)
  {
  }

  lemma QoS1Sends(s: State, m: Msg, r: Recipient, detached: bool, reading: bool)
    requires Blank(s, m) && m.qos == 1 && (reading ==> s.blocked.None?)
    ensures var z := DeliverQoS1(s, m, r, detached, reading);
            OthersSame(s, z, m) && SentTo(z, m, r, detached) && GoneBy(s, z, m, false, false)
  {
    var z := DeliverQoS1(s, m, r, detached, reading);
    hide Deliver, HeardOf, SpotOf, AllConcern;
    if Auto(r) {
      DeliverSends(s, m, r, detached, reading);
    } else if detached {
      RefusedSends(s, m, r);
    } else {
      ManualQoS1Is(s, m, reading);
      ManualConcern(m, reading);
      HeardMore(s.trace, if reading then [Manual(m)] else [Manual(m), Enqueued(m)], m);
      CallbackSpots(s, z, m, reading);
    }
  }

  lemma RefusedSends(s: State, m: Msg, r: Recipient)
    requires Blank(s, m) && r.Subscription?
    ensures var z := Log(s, Refused(m)); OthersSame(s, z, m) && SentTo(z, m, r, true) && GoneBy(s, z, m, false, false)
  {
    hide HeardOf, SpotOf, AllConcern;
    ManualConcern(m, false);
    HeardMore(s.trace, [Refused(m)], m);
    SameSpots(s, Log(s, Refused(m)));
  }

  /** No other message has the identifier on record. */
  ghost predicate Unrecorded(s: State, pid: int) { pid !in s.inflight && pid !in s.pendingAck }

  lemma FlightSpots(s: State, z: State, m: Msg, f: Flight)
    requires Unrecorded(s, m.pid) && f.msg == m
    requires z.inflight == s.inflight[m.pid := f] && z.pendingAck == s.pendingAck && z.callbacks == s.callbacks && z.blocked == s.blocked
    ensures forall n: Msg :: SpotOf(z, n) == if n == m then SpotOf(s, n).(flight := Some(f)) else SpotOf(s, n)
  {
  }

  lemma PendingSpots(s: State, z: State, m: Msg, wait: bool)
    requires Unrecorded(s, m.pid) && z.pendingAck == s.pendingAck[m.pid := m] && z.inflight == s.inflight && z.callbacks == s.callbacks
    requires (wait ==> s.blocked.None?) && z.blocked == if wait then Some(Put(m, false)) else s.blocked
    ensures forall n: Msg :: SpotOf(z, n) ==
              if n == m then SpotOf(s, n).(pending := true, wait := if wait then Some(false) else SpotOf(s, n).wait) else SpotOf(s, n)
  {
  }

  lemma QoS2Sends(s: State, m: Msg, r: Recipient, detached: bool, reading: bool)
    requires Blank(s, m) && m.qos == 2 && (reading ==> s.blocked.None?) && Unrecorded(s, m.pid)
    ensures var z := AcceptQoS2(s, m, r, detached, reading);
            OthersSame(s, z, m) && SentTo(z, m, r, detached) && GoneBy(s, z, m, false, false)
  {
    var z := AcceptQoS2(s, m, r, detached, reading);
    hide Deliver, HeardOf, SpotOf, AllConcern;
    ManualConcern(m, reading);
    if r.Subscription? && detached {
      RefusedSends(s, m, r);
    } else if Auto(r) {
      assert s.trace + [Accepted(m)] + [PubRecSent(m)] == s.trace + [Accepted(m), PubRecSent(m)];
      HeardMore(s.trace, [Accepted(m), PubRecSent(m)], m);
      FlightSpots(s, z, m, Flight(m, r, false));
    } else {
      AcceptManualIs(s, m, reading);
      HeardMore(s.trace, if reading then [Accepted(m), Manual(m)] else [Accepted(m), Manual(m), Enqueued(m)], m);
      PendingSpots(s, z, m, reading);
    }
  }

  // What becomes of it later.

  /** A flight ends: its message is handed on, unless the recipient is gone. */
  lemma PubRelSends(s: State, pid: int, gone: bool, r: Recipient, detached: bool)
    requires pid in s.inflight && s.inflight[pid].msg.pid == pid && s.inflight[pid].msg.qos == 2 && s.blocked.None?
    requires SentTo(s, s.inflight[pid].msg, r, detached)
    ensures var m := s.inflight[pid].msg; var z := PubRel(s, pid, gone);
            OthersSame(s, z, m) && SentTo(z, m, r, detached) && GoneBy(s, z, m, gone, false)
  {
    hide PubRel, HeardOf, SpotOf, AllConcern, AfterComp;
    var f := s.inflight[pid];
    var m := f.msg;
    var z := PubRel(s, pid, gone);
    FlightSpot(s, pid);
    PubRelIs(s, pid, gone);
    AfterCompConcern(m, f.recipient, gone);
    HeardMore(s.trace, if f.delivered then [PubCompSent(m)] else AfterComp(m, f.recipient, gone), m);
    AfterCompIs(m, f.recipient, gone);
    EndSpots(s, z, pid);
  }

  lemma FlightSpot(s: State, pid: int)
    requires pid in s.inflight && s.inflight[pid].msg.pid == pid && s.blocked.None?
    ensures SpotOf(s, s.inflight[pid].msg).flight == Some(s.inflight[pid]) && SpotOf(s, s.inflight[pid].msg).wait.None?
  {
  }

  lemma EndSpots(s: State, z: State, pid: int)
    requires pid in s.inflight && s.inflight[pid].msg.pid == pid && s.blocked.None?
    requires z.inflight == s.inflight - {pid} && z.pendingAck == s.pendingAck && z.callbacks == s.callbacks
    requires z.blocked == s.blocked || z.blocked == Some(Put(s.inflight[pid].msg, false))
    ensures forall n: Msg :: n != s.inflight[pid].msg ==> SpotOf(z, n) == SpotOf(s, n)
    ensures var m := s.inflight[pid].msg;
            SpotOf(z, m) == SpotOf(s, m).(flight := None, wait := if z.blocked.Some? then Some(false) else SpotOf(s, m).wait)
  {
  }

  lemma FinishSends(s: State, detached: bool, r: Recipient, d: bool)
    requires s.blocked.Some? && SentTo(s, s.blocked.value.msg, r, d)
    ensures var m := s.blocked.value.msg; var z := FinishPut(s, detached);
            OthersSame(s, z, m) && SentTo(z, m, r, d) && GoneBy(s, z, m, false, detached)
  {
    hide FinishPut, HeardOf, SpotOf, AllConcern;
    var Put(m, ack) := s.blocked.value;
    var z := FinishPut(s, detached);
    WaitSpot(s);
    FinishIs(s, detached);
    FinishedConcern(m, ack, detached);
    HeardMore(s.trace, Finished(m, ack, detached), m);
    FinishSpots(s, z);
  }

  lemma WaitSpot(s: State)
    requires s.blocked.Some?
    ensures SpotOf(s, s.blocked.value.msg).wait == Some(s.blocked.value.ack)
  {
  }

  lemma FinishSpots(s: State, z: State)
    requires s.blocked.Some? && z.blocked.None? && z.inflight == s.inflight && z.pendingAck == s.pendingAck && z.callbacks == s.callbacks
    ensures forall n: Msg :: SpotOf(z, n) == if n == s.blocked.value.msg then SpotOf(s, n).(wait := None) else SpotOf(s, n)
  {
  }

  lemma AckSends(s: State, m: Msg, r: Recipient, detached: bool)
    requires Enqueued(m) in s.trace && SentTo(s, m, r, detached)
    requires m.pid in s.pendingAck && s.pendingAck[m.pid] == m ==> m.pid !in s.inflight
    ensures var z := AppAck(s, m); OthersSame(s, z, m) && SentTo(z, m, r, detached) && GoneBy(s, z, m, false, false)
  {
    hide AppAck, AllConcern, HeardOf, SpotOf;
    var z := AppAck(s, m);
    EnqueuedHeard(s.trace, m);
    QueuedConcern(m);
    AppAckIs(s, m);
    hide OnlyFor, Reached;
    if m in s.callbacks {
      HeardMore(s.trace, [AppAcked(m), PubAckSent(m)], m);
    } else if m.qos == 2 && m.pid in s.pendingAck && s.pendingAck[m.pid] == m {
      HeardMore(s.trace, [AppAcked(m), PubRecSent(m)], m);
    } else {
      HeardMore(s.trace, [AppAcked(m)], m);
    }
    assert HeardOf(z.trace, m) == HeardOf(s.trace, m);
    AckSpots(s, z, m);
    AckedOnlyFor(HeardOf(s.trace, m), SpotOf(s, m), SpotOf(z, m), m, r, detached);
  }

  lemma AckedOnlyFor(h: Heard, p: Spot, now: Spot, m: Msg, r: Recipient, detached: bool)
    requires h.enqueued && Reached(h, p, m, r, detached) && OnlyFor(h, p, m, r, detached)
    requires now.wait == p.wait && (now.pending ==> p.pending) && (now.callback ==> p.callback)
    requires now.flight == p.flight || (p.pending && p.flight.None? && now.flight == Some(Flight(m, Subscription(false), true)))
    ensures Reached(h, now, m, r, detached) && OnlyFor(h, now, m, r, detached)
  {
  }

  lemma EnqueuedHeard(trace: Trace, m: Msg)
    requires Enqueued(m) in trace
    ensures HeardOf(trace, m).enqueued
  {
  }

  lemma AckSpots(s: State, z: State, m: Msg)
    requires m.pid in s.pendingAck && s.pendingAck[m.pid] == m ==> m.pid !in s.inflight
    requires z == AppAck(s, m)
    ensures forall n: Msg :: n != m ==> SpotOf(z, n) == SpotOf(s, n)
    ensures SpotOf(z, m).wait == SpotOf(s, m).wait
    ensures SpotOf(z, m).pending ==> SpotOf(s, m).pending
    ensures SpotOf(z, m).callback ==> SpotOf(s, m).callback
    ensures SpotOf(z, m).flight == SpotOf(s, m).flight ||
            (SpotOf(s, m).pending && SpotOf(s, m).flight.None? && SpotOf(z, m).flight == Some(Flight(m, Subscription(false), true)))
  {
    AppAckIs(s, m);
    hide AppAck;
  }

  // Whole runs.

  /** A step of the run took the message in for `r`, or handed it on to `r`. */
  ghost predicate Chosen(past: seq<Step>, m: Msg, r: Recipient, detached: bool) {
    PublishStep(m, Take(r, detached)) in past || DrainStep(m, r, detached) in past
  }

  ghost predicate Routed(s: State, past: seq<Step>, m: Msg) {
    && (forall r, d, r', d' :: Chosen(past, m, r, d) && Chosen(past, m, r', d') ==> r == r' && d == d')
    && (forall r, d :: Chosen(past, m, r, d) ==> m in s.seen && m !in s.held && (m !in s.turnedAway ==> SentTo(s, m, r, d)))
    && (m in s.turnedAway || (forall r, d :: !Chosen(past, m, r, d)) ==> Blank(s, m))
    && (m in s.held ==> m in s.seen && m !in s.turnedAway)
    && (forall r, d :: DrainStep(m, r, d) in past ==> m !in s.turnedAway)
    && (HeardOf(s.trace, m).lost || HeardOf(s.trace, m).stale ==> PubRelStep(m.pid, true) in past)
    && (HeardOf(s.trace, m).withdrawn ==> FinishPutStep(true) in past)
  }

  ghost predicate AllRouted(s: State, past: seq<Step>) { forall m: Msg :: Routed(s, past, m) }

  predicate Takes(e: Step, m: Msg) { ((e.PublishStep? && e.selection.Take?) || e.DrainStep?) && e.msg == m }

  lemma ChosenMore(past: seq<Step>, e: Step)
    ensures forall m, r, d :: Chosen(past + [e], m, r, d) <==>
              Chosen(past, m, r, d) || e == PublishStep(m, Take(r, d)) || e == DrainStep(m, r, d)
    ensures forall x :: x in past ==> x in past + [e]
    ensures e in past + [e]
    ensures forall m, r, d :: DrainStep(m, r, d) in past + [e] ==> DrainStep(m, r, d) in past || e == DrainStep(m, r, d)
  {
    forall m, r, d | DrainStep(m, r, d) in past + [e]
      ensures DrainStep(m, r, d) in past || e == DrainStep(m, r, d)
    {
      var x := DrainStep(m, r, d);
      var i :| 0 <= i < |past + [e]| && (past + [e])[i] == x;
      assert i < |past| ==> past[i] == x;
    }
  }

  lemma RoutedFrame(s: State, z: State, past: seq<Step>, e: Step, m: Msg)
    requires Routed(s, past, m) && SameFor(s, z, m) && !Takes(e, m)
    requires (m in z.held ==> m in s.held) && (m in z.turnedAway <==> m in s.turnedAway) && s.seen <= z.seen
    ensures Routed(z, past + [e], m)
  {
    ChosenMore(past, e);
    hide HeardOf, SpotOf, Chosen, Reached, OnlyFor;
  }

  /** The message the step takes or turns away had not been chosen before. */
  lemma RoutedNow(s: State, z: State, past: seq<Step>, e: Step, m: Msg, r: Recipient, detached: bool)
    requires forall r', d' :: !Chosen(past, m, r', d')
    requires e == PublishStep(m, Take(r, detached)) || e == DrainStep(m, r, detached)
    requires e.DrainStep? ==> m !in z.turnedAway
    requires m in z.seen && m !in z.held && (if m in z.turnedAway then Blank(z, m) else SentTo(z, m, r, detached))
    requires HeardOf(z.trace, m).lost || HeardOf(z.trace, m).stale ==> PubRelStep(m.pid, true) in past
    requires HeardOf(z.trace, m).withdrawn ==> FinishPutStep(true) in past
    ensures Routed(z, past + [e], m)
  {
    forall r', d'
      ensures DrainStep(m, r', d') !in past
    {
      assert !Chosen(past, m, r', d');
    }
    ChosenMore(past, e);
    hide HeardOf, SpotOf, Chosen, Reached, OnlyFor;
  }

  /** A message sent on by a step that takes nothing. */
  lemma RoutedOn(s: State, z: State, past: seq<Step>, e: Step, m: Msg)
    requires Routed(s, past, m) && !Takes(e, m)
    requires m in s.seen && m !in s.held && m !in z.held && m !in s.turnedAway && z.turnedAway == s.turnedAway && z.seen == s.seen
    requires forall r, d :: Chosen(past, m, r, d) ==> SentTo(z, m, r, d)
    requires exists r, d :: Chosen(past, m, r, d)
    requires GoneBy(s, z, m, e == PubRelStep(m.pid, true), e == FinishPutStep(true))
    ensures Routed(z, past + [e], m)
  {
    ChosenMore(past, e);
    hide HeardOf, SpotOf, Chosen, Reached, OnlyFor;
  }

  // Steps.

  /** Nothing has been done with a message that is held or has not arrived. */
  lemma StillBlank(s: State, m: Msg)
    requires Sound(s) && (m in s.held || m.serial >= s.arrived)
    ensures Blank(s, m)
  {
    hide Sound, MsgOk, Untouched;
    MsgIsOk(s, m);
    var p := PlaceOf(s, m);
    if m in s.held {
      HeldIsAlone(s.trace, m, p);
    } else {
      FutureIsNowhere(s.trace, m, p);
    }
    NothingHeard(s.trace, m);
    hide HeardOf;
  }

  lemma NothingHeard(trace: Trace, m: Msg)
    requires Untouched(trace, m)
    ensures HeardOf(trace, m) == NOTHING
  {
  }

  lemma RouteSends(q: State, m: Msg, r: Recipient, detached: bool)
    requires Blank(q, m) && 0 <= m.qos <= 2 && q.blocked.None? && (m.qos == 2 ==> Unrecorded(q, m.pid))
    ensures var z := Route(q, m, Take(r, detached));
            && OthersSame(q, z, m) && SentTo(z, m, r, detached) && GoneBy(q, z, m, false, false)
            && z.held == q.held && z.seen == q.seen && z.turnedAway == q.turnedAway
  {
    hide Deliver, DeliverQoS1, AcceptQoS2, Blank, SentTo, OthersSame;
    if m.qos == 0 {
      DeliverSends(q, m, r, detached, true);
    } else if m.qos == 1 {
      QoS1Sends(q, m, r, detached, true);
    } else {
      QoS2Sends(q, m, r, detached, true);
    }
    HandingKeeps(q, m, r, detached, true);
  }

  lemma HandingKeeps(q: State, m: Msg, r: Recipient, detached: bool, reading: bool)
    ensures var a, b, c := Deliver(q, m, r, detached, false, reading), DeliverQoS1(q, m, r, detached, reading),
                           AcceptQoS2(q, m, r, detached, reading);
            && a.held == b.held == c.held == q.held && a.seen == b.seen == c.seen == q.seen
            && a.turnedAway == b.turnedAway == c.turnedAway == q.turnedAway
  {
    DeliverRecords(q, m, r, detached, false, reading);
    QoS1Records(q, m, r, detached, reading);
    QoS2Records(q, m, r, detached, reading);
    DeliverHolds(q, m, r, detached, false, reading);
    QoSHolds(q, m, r, detached, reading);
    hide Deliver, DeliverQoS1, AcceptQoS2;
  }

  /** A PUBLISH is taken for the recipient selected, or held, or turned away with nothing done for it. */
  ghost predicate Outcome(s: State, z: State, m: Msg, sel: Selection) {
    && OthersSame(s, z, m) && z.seen == s.seen + {m}
    && (|| (z.turnedAway == s.turnedAway + {m} && z.held == s.held && Blank(z, m))
        || (sel.Hold? && z.turnedAway == s.turnedAway && z.held == s.held + {m} && Blank(z, m))
        || (sel.Take? && z.turnedAway == s.turnedAway && z.held == s.held &&
            SentTo(z, m, sel.recipient, sel.detached) && GoneBy(s, z, m, false, false)))
  }

  lemma PublishOutcome(s: State, m: Msg, sel: Selection)
    requires Enabled(s, PublishStep(m, sel)) && Blank(s, m)
    ensures Outcome(s, Publish(s, m, sel), m, sel)
  {
    var t := s.(arrived := s.arrived + 1, seen := s.seen + {m});
    var q := if m.qos == 0 then t else HoldQuota(t, m.pid);
    Received(s, m, sel);
    PublishIs(s, m, sel);
    hide Publish, Route, Blank, SentTo, HeldId, Outcome, SameTracks, HoldQuota, TurnAway, Log, Unrecorded;
    if m.qos > 0 && q.closed {
      AwayOutcome(s, q, m, sel);
    } else if m.qos == 2 && m.pid in q.inflight {
      AnsweredOutcome(s, q, m, q.inflight[m.pid].msg, sel);
    } else if m.qos > 0 && ((m.qos == 2 && m.pid in q.pendingAck) || HeldId(q.held, m.pid)) {
      AwayOutcome(s, q, m, sel);
    } else {
      IsUnrecorded(q, m.pid);
      RoutedOutcome(s, q, m, sel);
    }
  }

  lemma IsUnrecorded(q: State, pid: int)
    ensures Unrecorded(q, pid) <==> pid !in q.inflight && pid !in q.pendingAck
  {
  }

  ghost predicate SameTracks(s: State, z: State) { forall n: Msg :: SameFor(s, z, n) }

  /** Counting a message in changes no tracks. */
  lemma Received(s: State, m: Msg, sel: Selection)
    requires Enabled(s, PublishStep(m, sel)) && Blank(s, m)
    ensures var t := s.(arrived := s.arrived + 1, seen := s.seen + {m}); var q := if m.qos == 0 then t else HoldQuota(t, m.pid);
            && SameTracks(s, q) && Blank(q, m) && q.held == s.held && q.seen == s.seen + {m} && q.turnedAway == s.turnedAway
            && q.blocked.None? && 0 <= m.qos <= 2
  {
    var t := s.(arrived := s.arrived + 1, seen := s.seen + {m});
    var q := if m.qos == 0 then t else HoldQuota(t, m.pid);
    SameSpots(s, q);
    hide HeardOf, SpotOf;
  }

  lemma Chained(s: State, q: State, z: State, m: Msg)
    requires SameTracks(s, q) && OthersSame(q, z, m)
    ensures OthersSame(s, z, m) && SameFor(s, q, m)
  {
    hide HeardOf, SpotOf;
    forall n: Msg | n != m
      ensures SameFor(s, z, n)
    {
      assert SameFor(s, q, n) && SameFor(q, z, n);
    }
  }

  lemma AwayOutcome(s: State, q: State, m: Msg, sel: Selection)
    requires SameTracks(s, q) && Blank(q, m) && q.held == s.held && q.seen == s.seen + {m} && q.turnedAway == s.turnedAway
    ensures Outcome(s, TurnAway(q, m), m, sel)
  {
    hide HeardOf, SpotOf, SentTo, GoneBy;
    SameSpots(q, TurnAway(q, m));
    Chained(s, q, TurnAway(q, m), m);
  }

  /** PUBREC sent again tells nothing of where a message went. */
  lemma AnsweredOutcome(s: State, q: State, m: Msg, x: Msg, sel: Selection)
    requires SameTracks(s, q) && Blank(q, m) && q.held == s.held && q.seen == s.seen + {m} && q.turnedAway == s.turnedAway
    ensures Outcome(s, TurnAway(Log(q, PubRecSent(x)), m), m, sel)
  {
    hide HeardOf, SpotOf, SentTo, GoneBy, AllConcern;
    SameSpots(q, TurnAway(Log(q, PubRecSent(x)), m));
    QueuedConcern(x);
    HeardMore(q.trace, [PubRecSent(x)], x);
    PubRecUnheard(q.trace, x);
    Chained(s, q, TurnAway(Log(q, PubRecSent(x)), m), m);
  }

  lemma PubRecUnheard(trace: Trace, x: Msg)
    ensures HeardOf(trace + [PubRecSent(x)], x) == HeardOf(trace, x)
  {
  }

  lemma RoutedOutcome(s: State, q: State, m: Msg, sel: Selection)
    requires SameTracks(s, q) && Blank(q, m) && q.held == s.held && q.seen == s.seen + {m} && q.turnedAway == s.turnedAway
    requires q.blocked.None? && 0 <= m.qos <= 2 && (m.qos == 2 ==> Unrecorded(q, m.pid))
    ensures Outcome(s, Route(q, m, sel), m, sel)
  {
    match sel
    case Take(r, detached) =>
      hide HeardOf, SpotOf, SentTo, Blank, Route, Unrecorded;
      RouteSends(q, m, r, detached);
      Chained(s, q, Route(q, m, sel), m);
    case _ =>
      hide HeardOf, SpotOf, SentTo, GoneBy;
      SameSpots(q, Route(q, m, sel));
      Chained(s, q, Route(q, m, sel), m);
  }

  lemma PublishRouted(s: State, past: seq<Step>, m: Msg, sel: Selection)
    requires Sound(s) && TurnedAwayKnown(s) && AllRouted(s, past) && Enabled(s, PublishStep(m, sel))
    ensures AllRouted(Publish(s, m, sel), past + [PublishStep(m, sel)])
  {
    var e, z := PublishStep(m, sel), Publish(s, m, sel);
    NotSeen(s, m, sel);
    hide *;
    StillBlank(s, m);
    PublishOutcome(s, m, sel);
    forall n: Msg
      ensures Routed(z, past + [e], n)
    {
      RoutedOf(s, past, n);
      if n == m {
        NewRouted(s, z, past, m, sel);
      } else {
        OldRouted(s, z, past, m, sel, n);
      }
    }
    AllRoutedFrom(z, past + [e]);
  }

  lemma NotSeen(s: State, m: Msg, sel: Selection)
    requires TurnedAwayKnown(s) && Enabled(s, PublishStep(m, sel))
    ensures m !in s.seen && m !in s.turnedAway && m.serial >= s.arrived
  {
    hide OnRecord, Repeats;
  }

  lemma RoutedOf(s: State, past: seq<Step>, m: Msg)
    requires AllRouted(s, past)
    ensures Routed(s, past, m)
  {
    hide Routed;
  }

  lemma AllRoutedFrom(s: State, past: seq<Step>)
    requires forall m: Msg :: Routed(s, past, m)
    ensures AllRouted(s, past)
  {
    hide Routed;
  }

  lemma OldRouted(s: State, z: State, past: seq<Step>, m: Msg, sel: Selection, n: Msg)
    requires Routed(s, past, n) && n != m && Outcome(s, z, m, sel)
    ensures Routed(z, past + [PublishStep(m, sel)], n)
  {
    hide Routed, SameFor, Blank, SentTo;
    RoutedFrame(s, z, past, PublishStep(m, sel), n);
  }

  lemma NewRouted(s: State, z: State, past: seq<Step>, m: Msg, sel: Selection)
    requires Routed(s, past, m) && m !in s.seen && m !in s.turnedAway && Outcome(s, z, m, sel) && Blank(s, m)
    ensures Routed(z, past + [PublishStep(m, sel)], m)
  {
    var e := PublishStep(m, sel);
    assert forall r, d :: !Chosen(past, m, r, d);
    hide Chosen, SentTo, HeardOf, SpotOf, OthersSame;
    ChosenMore(past, e);
    if sel.Take? {
      RoutedNow(s, z, past, e, m, sel.recipient, sel.detached);
    }
  }

  lemma DrainSends(s: State, m: Msg, r: Recipient, detached: bool)
    requires Sound(s) && Enabled(s, DrainStep(m, r, detached))
    ensures var z := Drain(s, m, r, detached);
            && OthersSame(s, z, m) && SentTo(z, m, r, detached) && GoneBy(s, z, m, false, false)
            && z.held == s.held - {m} && z.seen == s.seen && z.turnedAway == s.turnedAway && Blank(s, m)
  {
    var t := s.(held := s.held - {m});
    hide Sound, Deliver, DeliverQoS1, AcceptQoS2, HeardOf, SpotOf, SentTo, GoneBy, OthersSame, Unrecorded;
    HeldArrived(s, m);
    StillBlank(s, m);
    HeldUnrecorded(s, m);
    UnrecordedSame(s, t, m.pid);
    Unheld(s, t);
    HandingKeeps(t, m, r, detached, false);
    if m.qos == 0 {
      DeliverSends(t, m, r, detached, false);
    } else if m.qos == 1 {
      QoS1Sends(t, m, r, detached, false);
    } else {
      QoS2Sends(t, m, r, detached, false);
    }
    UnheldSame(s, t, Drain(s, m, r, detached), m);
  }

  lemma UnrecordedSame(s: State, t: State, pid: int)
    requires t.inflight == s.inflight && t.pendingAck == s.pendingAck
    ensures Unrecorded(s, pid) == Unrecorded(t, pid)
  {
  }

  /** Tracks do not depend on what is held. */
  lemma Unheld(s: State, t: State)
    requires t == s.(held := t.held)
    ensures forall n: Msg :: HeardOf(t.trace, n) == HeardOf(s.trace, n) && SpotOf(t, n) == SpotOf(s, n)
  {
    SameSpots(s, t);
    hide SpotOf;
  }

  lemma UnheldSame(s: State, t: State, z: State, m: Msg)
    requires t == s.(held := t.held)
    ensures OthersSame(t, z, m) == OthersSame(s, z, m) && GoneBy(t, z, m, false, false) == GoneBy(s, z, m, false, false)
  {
    Unheld(s, t);
    hide SpotOf, HeardOf;
    assert forall n: Msg :: SameFor(t, z, n) == SameFor(s, z, n);
  }

  lemma HeldUnrecorded(s: State, m: Msg)
    requires Sound(s) && m in s.held
    ensures m.qos == 2 ==> Unrecorded(s, m.pid)
  {
    hide AllOk, Justified;
  }

  lemma DrainRouted(s: State, past: seq<Step>, m: Msg, r: Recipient, detached: bool)
    requires Sound(s) && AllRouted(s, past) && Enabled(s, DrainStep(m, r, detached))
    ensures AllRouted(Drain(s, m, r, detached), past + [DrainStep(m, r, detached)])
  {
    var e, z := DrainStep(m, r, detached), Drain(s, m, r, detached);
    assert m in s.held;
    hide *;
    DrainSends(s, m, r, detached);
    forall n: Msg
      ensures Routed(z, past + [e], n)
    {
      RoutedOf(s, past, n);
      if n == m {
        HandedOnRouted(s, z, past, m, r, detached);
      } else {
        ElseRouted(s, z, past, e, m, n);
      }
    }
    AllRoutedFrom(z, past + [e]);
  }

  lemma HandedOnRouted(s: State, z: State, past: seq<Step>, m: Msg, r: Recipient, detached: bool)
    requires Routed(s, past, m) && m in s.held && Blank(s, m)
    requires SentTo(z, m, r, detached) && GoneBy(s, z, m, false, false)
    requires z.held == s.held - {m} && z.seen == s.seen && z.turnedAway == s.turnedAway
    ensures Routed(z, past + [DrainStep(m, r, detached)], m)
  {
    hide Chosen, SentTo, HeardOf, SpotOf;
    RoutedNow(s, z, past, DrainStep(m, r, detached), m, r, detached);
  }

  /** The step concerns another message. */
  lemma ElseRouted(s: State, z: State, past: seq<Step>, e: Step, m: Msg, n: Msg)
    requires Routed(s, past, n) && n != m && OthersSame(s, z, m) && !Takes(e, n)
    requires z.held <= s.held && z.seen == s.seen && z.turnedAway == s.turnedAway
    ensures Routed(z, past + [e], n)
  {
    hide Routed, SameFor;
    RoutedFrame(s, z, past, e, n);
  }

  /** Whatever is on record or in the history was chosen for somebody. */
  lemma ChosenFor(s: State, past: seq<Step>, m: Msg) returns (r: Recipient, detached: bool)
    requires Routed(s, past, m) && !Blank(s, m)
    ensures Chosen(past, m, r, detached) && SentTo(s, m, r, detached)
    ensures m in s.seen && m !in s.held && m !in s.turnedAway
    ensures forall r', d' :: Chosen(past, m, r', d') ==> r' == r && d' == detached
  {
    hide Chosen, SentTo, Blank, HeardOf;
    r, detached :| Chosen(past, m, r, detached);
  }

  /** A step that moves on one message, chosen before. */
  lemma MovedRouted(s: State, z: State, past: seq<Step>, e: Step, m: Msg, r: Recipient, detached: bool)
    requires AllRouted(s, past) && OthersSame(s, z, m) && (forall n: Msg :: !Takes(e, n))
    requires m in s.seen && m !in s.held && m !in s.turnedAway
    requires z.held == s.held && z.seen == s.seen && z.turnedAway == s.turnedAway
    requires Chosen(past, m, r, detached) && forall r', d' :: Chosen(past, m, r', d') ==> r' == r && d' == detached
    requires SentTo(z, m, r, detached) && GoneBy(s, z, m, e == PubRelStep(m.pid, true), e == FinishPutStep(true))
    ensures AllRouted(z, past + [e])
  {
    hide *;
    forall n: Msg
      ensures Routed(z, past + [e], n)
    {
      RoutedOf(s, past, n);
      if n == m {
        RoutedOn(s, z, past, e, m);
      } else {
        ElseRouted(s, z, past, e, m, n);
      }
    }
    AllRoutedFrom(z, past + [e]);
  }

  lemma NothingTaken(e: Step)
    requires !e.PublishStep? && !e.DrainStep?
    ensures forall n: Msg :: !Takes(e, n)
  {
  }

  lemma PubRelRouted(s: State, past: seq<Step>, pid: int, gone: bool)
    requires Sound(s) && AllRouted(s, past) && Enabled(s, PubRelStep(pid, gone)) && pid in s.inflight
    ensures AllRouted(PubRel(s, pid, gone), past + [PubRelStep(pid, gone)])
  {
    var m := s.inflight[pid].msg;
    var z := PubRel(s, pid, gone);
    FlightKnown(s, pid);
    assert s.blocked.None?;
    PubRelIs(s, pid, gone);
    hide Sound, PubRel, AllRouted, Chosen, SentTo, GoneBy, OthersSame, AfterComp, Routed, Blank;
    RoutedOf(s, past, m);
    var r, d := ChosenFor(s, past, m);
    PubRelSends(s, pid, gone, r, d);
    NothingTaken(PubRelStep(pid, gone));
    WeakerGone(s, z, m, gone, PubRelStep(pid, gone) == PubRelStep(m.pid, true), false, PubRelStep(pid, gone) == FinishPutStep(true));
    MovedRouted(s, z, past, PubRelStep(pid, gone), m, r, d);
  }

  lemma FlightKnown(s: State, pid: int)
    requires Sound(s) && pid in s.inflight
    ensures var m := s.inflight[pid].msg; m.pid == pid && m.qos == 2 && !Blank(s, m)
  {
    assert SpotOf(s, s.inflight[pid].msg).flight.Some?;
    hide AllOk, Justified, HeardOf, IdsDisjoint;
  }

  lemma WeakerGone(s: State, z: State, m: Msg, gone: bool, gone': bool, withdrawn: bool, withdrawn': bool)
    requires GoneBy(s, z, m, gone, withdrawn) && (gone ==> gone') && (withdrawn ==> withdrawn')
    ensures GoneBy(s, z, m, gone', withdrawn')
  {
  }

  lemma FinishRouted(s: State, past: seq<Step>, detached: bool)
    requires AllRouted(s, past) && Enabled(s, FinishPutStep(detached))
    ensures AllRouted(FinishPut(s, detached), past + [FinishPutStep(detached)])
  {
    var m := s.blocked.value.msg;
    var z := FinishPut(s, detached);
    assert SpotOf(s, m).wait.Some?;
    FinishIs(s, detached);
    hide FinishPut, AllRouted, Chosen, SentTo, GoneBy, OthersSame, Finished, Routed;
    RoutedOf(s, past, m);
    var r, d := ChosenFor(s, past, m);
    FinishSends(s, detached, r, d);
    NothingTaken(FinishPutStep(detached));
    MovedRouted(s, z, past, FinishPutStep(detached), m, r, d);
  }

  lemma AckRouted(s: State, past: seq<Step>, m: Msg)
    requires Sound(s) && AllRouted(s, past) && Enabled(s, AppAckStep(m))
    ensures AllRouted(AppAck(s, m), past + [AppAckStep(m)])
  {
    var z := AppAck(s, m);
    assert HeardOf(s.trace, m).enqueued;
    assert m.pid in s.pendingAck && s.pendingAck[m.pid] == m ==> m.pid !in s.inflight by {
      SoundParts(s);
    }
    AppAckIs(s, m);
    hide Sound, AppAck, AllRouted, Chosen, SentTo, GoneBy, OthersSame, Routed;
    RoutedOf(s, past, m);
    var r, d := ChosenFor(s, past, m);
    AckSends(s, m, r, d);
    NothingTaken(AppAckStep(m));
    MovedRouted(s, z, past, AppAckStep(m), m, r, d);
  }

  /** Steps that send nothing on. */
  lemma IdleRouted(s: State, z: State, past: seq<Step>, e: Step)
    requires AllRouted(s, past) && SameTracks(s, z) && !e.PublishStep? && !e.DrainStep?
    requires z.held <= s.held && z.seen == s.seen && z.turnedAway == s.turnedAway
    ensures AllRouted(z, past + [e])
  {
    hide Routed, SameFor;
    forall n: Msg
      ensures Routed(z, past + [e], n)
    {
      RoutedFrame(s, z, past, e, n);
    }
  }

  lemma StrayTracks(s: State, pid: int)
    ensures SameTracks(s, Log(s, StrayPubComp(pid)))
  {
    var z := Log(s, StrayPubComp(pid));
    SameSpots(s, z);
    hide SpotOf;
  }

  lemma IdleTracks(s: State, e: Step)
    requires Enabled(s, e) && (e.DrainEndStep? || e.ExpireStep? || e.ClearStep?)
    ensures var z := Apply(s, e); SameTracks(s, z) && z.held <= s.held && z.seen == s.seen && z.turnedAway == s.turnedAway
  {
    SameSpots(s, Apply(s, e));
    hide SpotOf, HeardOf;
  }

  lemma StepRouted(s: State, past: seq<Step>, e: Step)
    requires Sound(s) && TurnedAwayKnown(s) && AllRouted(s, past) && Enabled(s, e)
    ensures AllRouted(Apply(s, e), past + [e])
  {
    hide Sound, TurnedAwayKnown, AllRouted, Publish, FinishPut, AppAck, Drain, SameTracks;
    match e
    case PublishStep(m, sel) => PublishRouted(s, past, m, sel);
    case PubRelStep(pid, gone) =>
      if pid in s.inflight {
        PubRelRouted(s, past, pid, gone);
      } else {
        StrayTracks(s, pid);
        IdleRouted(s, Apply(s, e), past, e);
      }
    case FinishPutStep(detached) => FinishRouted(s, past, detached);
    case AppAckStep(m) => AckRouted(s, past, m);
    case DrainStep(m, r, detached) => DrainRouted(s, past, m, r, detached);
    case _ =>
      IdleTracks(s, e);
      IdleRouted(s, Apply(s, e), past, e);
  }

  lemma {:induction false} RunsRouted(s: State, past: seq<Step>, steps: seq<Step>, end: State)
    requires Sound(s) && TurnedAwayKnown(s) && AllRouted(s, past) && Runs(s, steps, end)
    ensures AllRouted(end, past + steps)
    decreases |steps|
  {
    hide Sound, TurnedAwayKnown, AllRouted, Enabled, Apply;
    if steps == [] {
      assert past + steps == past;
    } else {
      StepKeeps(s, steps[0]);
      StepKnown(s, steps[0]);
      StepRouted(s, past, steps[0]);
      RunsRouted(Apply(s, steps[0]), past + [steps[0]], steps[1..], end);
      assert past + [steps[0]] + steps[1..] == past + steps;
    }
  }

  lemma InitialRouted(limit: Option<nat>, sessionPresent: bool)
    ensures AllRouted(Initial(limit, sessionPresent), []) && TurnedAwayKnown(Initial(limit, sessionPresent))
  {
  }

  /**
   * In every run a message goes where the selection sent it. Selected for nobody it is dropped with its acknowledgement;
   * for a request it is handed over; for an attached subscription it is put on its queue, or waits for room there; at QoS 2
   * an automatic one first awaits PUBREL, and only a PUBREL that finds it gone keeps it back. It is refused if and only if
   * the subscription was detached, and waits for ack() if and only if the subscription acknowledges by hand.
   */
  lemma SentWhereSelected(limit: Option<nat>, sessionPresent: bool, steps: seq<Step>, end: State, m: Msg, r: Recipient, detached: bool)
    requires Runs(Initial(limit, sessionPresent), steps, end)
    requires (PublishStep(m, Take(r, detached)) in steps && m !in end.turnedAway) || DrainStep(m, r, detached) in steps
    ensures var release := m.qos == 2 && m.pid in end.inflight && end.inflight[m.pid] == Flight(m, r, false);
            match r
            case Nobody => Unclaimed(m) in end.trace || release
            case Request => Handed(m) in end.trace || release || (Stale(m) in end.trace && PubRelStep(m.pid, true) in steps)
            case Subscription(autoAck) =>
              && (Refused(m) in end.trace <==> detached)
              && (Manual(m) in end.trace <==> m.qos > 0 && !autoAck && !detached)
              && (!detached ==>
                    || Enqueued(m) in end.trace || end.blocked == Some(Put(m, m.qos == 1 && autoAck))
                    || (autoAck && (release || (m.qos == 2 && Lost(m) in end.trace && PubRelStep(m.pid, true) in steps))))
    ensures Accepted(m) in end.trace <==> m.qos == 2 && !(r.Subscription? && detached)
    ensures Withdrawn(m) in end.trace ==> FinishPutStep(true) in steps
  {
    var s := Initial(limit, sessionPresent);
    InitialSound(limit, sessionPresent);
    InitialRouted(limit, sessionPresent);
    RunsRouted(s, [], steps, end);
    assert [] + steps == steps;
    RoutedOf(end, steps, m);
    hide Runs, AllRouted;
    assert Chosen(steps, m, r, detached) && SentTo(end, m, r, detached);
    SentMeans(end, steps, m, r, detached);
    hide SentTo, Chosen, Routed;
  }

  lemma SentMeans(s: State, steps: seq<Step>, m: Msg, r: Recipient, detached: bool)
    requires SentTo(s, m, r, detached) && Routed(s, steps, m)
    ensures var release := m.qos == 2 && m.pid in s.inflight && s.inflight[m.pid] == Flight(m, r, false);
            match r
            case Nobody => Unclaimed(m) in s.trace || release
            case Request => Handed(m) in s.trace || release || (Stale(m) in s.trace && PubRelStep(m.pid, true) in steps)
            case Subscription(autoAck) =>
              && (Refused(m) in s.trace <==> detached)
              && (Manual(m) in s.trace <==> m.qos > 0 && !autoAck && !detached)
              && (!detached ==>
                    || Enqueued(m) in s.trace || s.blocked == Some(Put(m, m.qos == 1 && autoAck))
                    || (autoAck && (release || (m.qos == 2 && Lost(m) in s.trace && PubRelStep(m.pid, true) in steps))))
    ensures Accepted(m) in s.trace <==> m.qos == 2 && !(r.Subscription? && detached)
    ensures Withdrawn(m) in s.trace ==> FinishPutStep(true) in steps
  {
    hide Chosen;
  }

  /** In every run what happens to a message happens because it was selected for a recipient of that kind. */
  lemma SentOnlyWhereSelected(limit: Option<nat>, sessionPresent: bool, steps: seq<Step>, end: State, m: Msg)
    requires Runs(Initial(limit, sessionPresent), steps, end)
    ensures Refused(m) in end.trace ==> exists a: bool :: Chosen(steps, m, Subscription(a), true)
    ensures Unclaimed(m) in end.trace ==> exists d :: Chosen(steps, m, Nobody, d)
    ensures Handed(m) in end.trace || Stale(m) in end.trace ==> exists d :: Chosen(steps, m, Request, d)
    ensures Enqueued(m) in end.trace || Withdrawn(m) in end.trace || (end.blocked.Some? && end.blocked.value.msg == m) ==>
              exists a: bool :: Chosen(steps, m, Subscription(a), false)
    ensures Lost(m) in end.trace ==> Chosen(steps, m, Subscription(true), false)
    ensures Manual(m) in end.trace ==> Chosen(steps, m, Subscription(false), false)
    ensures m in end.turnedAway ==> HeardOf(end.trace, m) == NOTHING
  {
    var s := Initial(limit, sessionPresent);
    InitialSound(limit, sessionPresent);
    InitialRouted(limit, sessionPresent);
    RunsRouted(s, [], steps, end);
    assert [] + steps == steps;
    RoutedOf(end, steps, m);
    if !Blank(end, m) {
      var r, d := ChosenFor(end, steps, m);
      hide Chosen, Runs, Routed, AllRouted;
    }
  }
}
