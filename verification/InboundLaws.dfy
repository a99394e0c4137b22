/** What a PUBLISH does before anybody is chosen for it, and what becomes of the units of Receive Maximum. */
module InboundLaws {
  import opened Util
  import opened Inbound

  /**
   * A PUBLISH that exceeds Receive Maximum ends the connection. At QoS 2 one whose PUBREC has been sent is answered with
   * another PUBREC for the exchange on record, and one that waits for ack() is ignored; so is one whose identifier is held.
   */
  lemma DuplicateExactly(s: State, m: Msg, sel: Selection)
    requires Enabled(s, PublishStep(m, sel)) && m.qos > 0
    ensures var z := Publish(s, m, sel);
            var away := s.(arrived := s.arrived + 1, seen := s.seen + {m}, unacked := s.unacked + {m.pid},
                           turnedAway := s.turnedAway + {m});
            var exceeded := s.limit.Some? && |s.unacked + {m.pid}| > s.limit.value;
            var tracked := m.qos == 2 && (m.pid in s.inflight || m.pid in s.pendingAck);
            var holding := exists n :: n in s.held && n.qos > 0 && n.pid == m.pid;
            && (exceeded ==> z == away.(closed := true))
            && (!exceeded && tracked && m.pid in s.inflight ==>
                  z == away.(trace := s.trace + [PubRecSent(s.inflight[m.pid].msg)]))
            && (!exceeded && tracked && m.pid !in s.inflight ==> z == away)
            && (!exceeded && !tracked && holding ==> z == away)
  {
    PublishIs(s, m, sel);
    hide Publish, Route;
  }

  /** A recipient is selected for a PUBLISH if and only if it ends no connection, repeats no exchange and has no held identifier. */
  lemma SelectsExactly(s: State, m: Msg)
    requires !s.closed
    ensures Selects(s, m) <==>
              || m.qos == 0
              || (&& !(s.limit.Some? && |s.unacked + {m.pid}| > s.limit.value)
                  && !(m.qos == 2 && (m.pid in s.inflight || m.pid in s.pendingAck))
                  && forall n :: n in s.held && n.qos > 0 ==> n.pid != m.pid)
  {
  }

  /** Any other one is held or overflows if the replay layer says so, and counts at QoS 1 and 2 until it is acknowledged. */
  lemma TakenInExactly(s: State, m: Msg, sel: Selection)
    requires Enabled(s, PublishStep(m, sel))
    requires m.qos > 0 ==> !(s.limit.Some? && |s.unacked + {m.pid}| > s.limit.value)
    requires m.qos == 2 ==> m.pid !in s.inflight && m.pid !in s.pendingAck
    requires m.qos > 0 ==> forall n :: n in s.held && n.qos > 0 ==> n.pid != m.pid
    ensures var z := Publish(s, m, sel);
            var counted := s.(arrived := s.arrived + 1, seen := s.seen + {m},
                              unacked := s.unacked + if m.qos > 0 then {m.pid} else {});
            && (sel.Hold? ==> z == counted.(held := s.held + {m}, replay := Buffered))
            && (sel.Overflow? ==> z == counted.(closed := true, turnedAway := s.turnedAway + {m}))
            && (sel.Take? ==> z.held == s.held && z.turnedAway == s.turnedAway && z.closed == s.closed)
  {
    PublishIs(s, m, sel);
    assert s.unacked + {} == s.unacked;
    var t := s.(arrived := s.arrived + 1, seen := s.seen + {m});
    var q := if m.qos == 0 then t else HoldQuota(t, m.pid);
    assert q == s.(arrived := s.arrived + 1, seen := s.seen + {m}, unacked := s.unacked + if m.qos > 0 then {m.pid} else {});
    hide Publish, Deliver, DeliverQoS1, AcceptQoS2, HoldQuota;
    if sel.Take? {
      HandingHolds(q, m, sel.recipient, sel.detached);
    }
  }

  lemma HandingHolds(q: State, m: Msg, r: Recipient, detached: bool)
    ensures var a, b := Deliver(q, m, r, detached, false, true), DeliverQoS1(q, m, r, detached, true);
            var c := AcceptQoS2(q, m, r, detached, true);
            && a.held == b.held == c.held == q.held && a.closed == b.closed == c.closed == q.closed
            && a.turnedAway == b.turnedAway == c.turnedAway == q.turnedAway
  {
    DeliverRecords(q, m, r, detached, false, true);
    QoS1Records(q, m, r, detached, true);
    QoS2Records(q, m, r, detached, true);
    DeliverHolds(q, m, r, detached, false, true);
    QoSHolds(q, m, r, detached, true);
    hide Deliver, DeliverQoS1, AcceptQoS2;
  }

  /**
   * In every run an exchange that has been accepted stays on record until its PUBCOMP: after its PUBREC, where a PUBREL finds
   * it, and before, where ack() does. So does a QoS 1 message that the application has to acknowledge.
   */
  lemma OnRecordUntilDone(limit: Option<nat>, sessionPresent: bool, steps: seq<Step>, end: State, m: Msg)
    requires Runs(Initial(limit, sessionPresent), steps, end)
    ensures Accepted(m) in end.trace && PubCompSent(m) !in end.trace && PubRecSent(m) in end.trace ==>
              m.pid in end.inflight && end.inflight[m.pid].msg == m
    ensures Accepted(m) in end.trace && PubCompSent(m) !in end.trace && PubRecSent(m) !in end.trace ==>
              m.pid in end.pendingAck && end.pendingAck[m.pid] == m
    ensures m.qos == 1 && Enqueued(m) in end.trace && Manual(m) in end.trace && AppAcked(m) !in end.trace ==> m in end.callbacks
  {
    hide Runs, Sound;
    InitialSound(limit, sessionPresent);
    RunsKeep(Initial(limit, sessionPresent), steps, end);
    MsgIsOk(end, m);
  }

  // Units are given back.

  /** A message of QoS 1 or 2 whose flow has not ended with a PUBACK or PUBCOMP. */
  ghost predicate Owes(s: State, m: Msg, pid: int) {
    m in s.seen && m.qos > 0 && m.pid == pid && PubAckSent(m) !in s.trace && PubCompSent(m) !in s.trace
  }

  ghost predicate UnitsOwed(s: State) { forall pid :: pid in s.unacked ==> exists m :: Owes(s, m, pid) }

  /** A step that acknowledges at most messages under one identifier, which then counts no more. */
  lemma OwedStep(s: State, z: State, pid: int)
    requires UnitsOwed(s) && z.seen >= s.seen && pid !in z.unacked && z.unacked <= s.unacked
    requires forall n: Msg :: n.pid != pid ==> (PubAckSent(n) in z.trace <==> PubAckSent(n) in s.trace)
    requires forall n: Msg :: n.pid != pid ==> (PubCompSent(n) in z.trace <==> PubCompSent(n) in s.trace)
    ensures UnitsOwed(z)
  {
    forall q | q in z.unacked
      ensures exists m :: Owes(z, m, q)
    {
      var m :| Owes(s, m, q);
      assert Owes(z, m, q);
    }
  }

  /** A step that acknowledges nothing. */
  lemma OwedFrame(s: State, z: State)
    requires UnitsOwed(s) && z.seen >= s.seen && z.unacked <= s.unacked
    requires forall n: Msg :: PubAckSent(n) in z.trace <==> PubAckSent(n) in s.trace
    requires forall n: Msg :: PubCompSent(n) in z.trace <==> PubCompSent(n) in s.trace
    ensures UnitsOwed(z)
  {
    forall q | q in z.unacked
      ensures exists m :: Owes(z, m, q)
    {
      var m :| Owes(s, m, q);
      assert Owes(z, m, q);
    }
  }

  /** What a handler does with message `m`: it acknowledges `m` or nobody, and `m` only with its unit given back. */
  ghost predicate Settles(s: State, z: State, m: Msg) {
    && z.seen == s.seen && z.unacked <= s.unacked
    && (forall n: Msg :: n != m ==>
          (PubAckSent(n) in z.trace <==> PubAckSent(n) in s.trace) && (PubCompSent(n) in z.trace <==> PubCompSent(n) in s.trace))
    && (PubAckSent(m) in z.trace && PubAckSent(m) !in s.trace ==> m.pid !in z.unacked)
    && (PubCompSent(m) in z.trace && PubCompSent(m) !in s.trace ==> m.pid !in z.unacked)
    && (PubAckSent(m) in s.trace ==> PubAckSent(m) in z.trace) && (PubCompSent(m) in s.trace ==> PubCompSent(m) in z.trace)
  }

  lemma SettlesOwed(s: State, z: State, m: Msg)
    requires UnitsOwed(s) && Settles(s, z, m)
    ensures UnitsOwed(z)
  {
    if (PubAckSent(m) in z.trace && PubAckSent(m) !in s.trace) || (PubCompSent(m) in z.trace && PubCompSent(m) !in s.trace) {
      OwedStep(s, z, m.pid);
    } else {
      OwedFrame(s, z);
    }
  }

  lemma EventsSettle(s: State, z: State, m: Msg, events: Trace)
    requires z.trace == s.trace + events && AllConcern(events, m) && z.seen == s.seen && z.unacked <= s.unacked
    requires PubAckSent(m) in events || PubCompSent(m) in events ==> m.pid !in z.unacked
    ensures Settles(s, z, m)
  {
    assert forall e :: e in s.trace + events <==> e in s.trace || e in events;
  }

  lemma DeliverSettles(s: State, m: Msg, r: Recipient, detached: bool, ack: bool, reading: bool)
    ensures Settles(s, Deliver(s, m, r, detached, ack, reading), m)
  {
    DeliverIs(s, m, r, detached, ack, reading);
    hide Deliver, DeliverEvents, AllConcern;
    EventsSettle(s, Deliver(s, m, r, detached, ack, reading), m, DeliverEvents(m, r, detached, ack, reading));
  }

  lemma QoS1Settles(s: State, m: Msg, r: Recipient, detached: bool, reading: bool)
    ensures Settles(s, DeliverQoS1(s, m, r, detached, reading), m)
  {
    hide Deliver, Settles, AllConcern;
    var z := DeliverQoS1(s, m, r, detached, reading);
    if Auto(r) {
      DeliverSettles(s, m, r, detached, true, reading);
    } else if detached {
      RefusedConcerns(m);
      EventsSettle(s, z, m, [Refused(m)]);
    } else {
      ManualQoS1Is(s, m, reading);
      TwoConcern(m);
      var events := if reading then [Manual(m)] else [Manual(m), Enqueued(m)];
      ManualQuiet(m, reading);
      EventsSettle(s, z, m, events);
    }
  }

  lemma ManualQuiet(m: Msg, reading: bool)
    ensures var a := if reading then [Manual(m)] else [Manual(m), Enqueued(m)];
            var b := if reading then [Accepted(m), Manual(m)] else [Accepted(m), Manual(m), Enqueued(m)];
            && AllConcern(a, m) && AllConcern(b, m) && AllConcern([Accepted(m), PubRecSent(m)], m)
            && PubAckSent(m) !in a && PubCompSent(m) !in a && PubAckSent(m) !in b && PubCompSent(m) !in b
  {
  }

  lemma QoS2Settles(s: State, m: Msg, r: Recipient, detached: bool, reading: bool)
    ensures Settles(s, AcceptQoS2(s, m, r, detached, reading), m)
  {
    hide Deliver, Settles, AllConcern;
    var z := AcceptQoS2(s, m, r, detached, reading);
    ManualQuiet(m, reading);
    if r.Subscription? && detached {
      RefusedConcerns(m);
      EventsSettle(s, z, m, [Refused(m)]);
    } else if Auto(r) {
      assert s.trace + [Accepted(m)] + [PubRecSent(m)] == s.trace + [Accepted(m), PubRecSent(m)];
      EventsSettle(s, z, m, [Accepted(m), PubRecSent(m)]);
    } else {
      AcceptManualIs(s, m, reading);
      EventsSettle(s, z, m, if reading then [Accepted(m), Manual(m)] else [Accepted(m), Manual(m), Enqueued(m)]);
    }
  }

  lemma RouteSettles(s: State, m: Msg, r: Recipient, detached: bool, reading: bool)
    ensures m.qos == 0 ==> Settles(s, Deliver(s, m, r, detached, false, reading), m)
    ensures m.qos == 1 ==> Settles(s, DeliverQoS1(s, m, r, detached, reading), m)
    ensures m.qos == 2 ==> Settles(s, AcceptQoS2(s, m, r, detached, reading), m)
  {
    hide Deliver, DeliverQoS1, AcceptQoS2, Settles;
    DeliverSettles(s, m, r, detached, false, reading);
    QoS1Settles(s, m, r, detached, reading);
    QoS2Settles(s, m, r, detached, reading);
  }

  /** Counting a message in keeps every unit owed: the new one by the message itself. */
  lemma CountedOwed(s: State, m: Msg)
    requires UnitsOwed(s) && Untouched(s.trace, m)
    ensures var t := s.(arrived := s.arrived + 1, seen := s.seen + {m});
            UnitsOwed(t) && (m.qos > 0 ==> UnitsOwed(HoldQuota(t, m.pid)))
  {
    var t := s.(arrived := s.arrived + 1, seen := s.seen + {m});
    OwedFrame(s, t);
    if m.qos > 0 {
      var q := HoldQuota(t, m.pid);
      forall pid | pid in q.unacked
        ensures exists n :: Owes(q, n, pid)
      {
        if pid == m.pid {
          assert Owes(q, m, pid);
        } else {
          var n :| Owes(t, n, pid);
          assert Owes(q, n, pid);
        }
      }
    }
  }

  lemma PublishOwed(s: State, m: Msg, sel: Selection)
    requires UnitsOwed(s) && Sound(s) && Enabled(s, PublishStep(m, sel))
    ensures UnitsOwed(Publish(s, m, sel))
  {
    var t := s.(arrived := s.arrived + 1, seen := s.seen + {m});
    var q := if m.qos == 0 then t else HoldQuota(t, m.pid);
    NewUntouched(s, m);
    CountedOwed(s, m);
    PublishIs(s, m, sel);
    assert 0 <= m.qos <= 2;
    hide Sound, Publish, Deliver, DeliverQoS1, AcceptQoS2, UnitsOwed, HoldQuota, HeldId, Settles, Untouched;
    AwayOwed(q, m);
    if m.pid in q.inflight {
      AnsweredOwed(q, m, q.inflight[m.pid].msg);
    }
    RoutedOwed(q, m, sel);
  }

  lemma NewUntouched(s: State, m: Msg)
    requires Sound(s) && m.serial >= s.arrived
    ensures Untouched(s.trace, m)
  {
    MsgIsOk(s, m);
    FutureIsNowhere(s.trace, m, PlaceOf(s, m));
    hide MsgOk, Untouched;
  }

  lemma AwayOwed(q: State, m: Msg)
    requires UnitsOwed(q)
    ensures UnitsOwed(TurnAway(q, m))
  {
    OwedFrame(q, TurnAway(q, m));
  }

  lemma AnsweredOwed(q: State, m: Msg, x: Msg)
    requires UnitsOwed(q)
    ensures UnitsOwed(TurnAway(Log(q, PubRecSent(x)), m))
  {
    var z := TurnAway(Log(q, PubRecSent(x)), m);
    assert forall e :: e in z.trace <==> e in q.trace || e == PubRecSent(x);
    OwedFrame(q, z);
  }

  lemma RoutedOwed(q: State, m: Msg, sel: Selection)
    requires UnitsOwed(q) && 0 <= m.qos <= 2
    ensures UnitsOwed(Route(q, m, sel))
  {
    match sel
    case Take(r, detached) =>
      RouteSettles(q, m, r, detached, true);
      hide Deliver, DeliverQoS1, AcceptQoS2, UnitsOwed, Settles;
      SettlesOwed(q, Route(q, m, sel), m);
    case _ => OwedFrame(q, Route(q, m, sel));
  }

  lemma OtherOwed(s: State, e: Step)
    requires UnitsOwed(s) && Sound(s) && Enabled(s, e) && !e.PublishStep?
    ensures UnitsOwed(Apply(s, e))
  {
    var z := Apply(s, e);
    match e
    case PubRelStep(pid, gone) =>
      if pid in s.inflight {
        PubRelOwed(s, pid, gone);
      } else {
        assert forall x :: x in z.trace <==> x in s.trace || x == StrayPubComp(pid);
        OwedFrame(s, z);
      }
    case FinishPutStep(detached) =>
      FinishIs(s, detached);
      var Put(m, ack) := s.blocked.value;
      FinishedConcern(m, ack, detached);
      hide FinishPut, Finished, Settles, UnitsOwed, AllConcern;
      EventsSettle(s, z, m, Finished(m, ack, detached));
      SettlesOwed(s, z, m);
    case AppAckStep(m) => AckOwed(s, m);
    case DrainStep(m, r, detached) =>
      HeldArrived(s, m);
      var t := s.(held := s.held - {m});
      OwedFrame(s, t);
      hide Deliver, DeliverQoS1, AcceptQoS2, UnitsOwed, Settles;
      RouteSettles(t, m, r, detached, false);
      SettlesOwed(t, z, m);
    case _ => OwedFrame(s, z);
  }

  lemma PubRelOwed(s: State, pid: int, gone: bool)
    requires UnitsOwed(s) && Sound(s) && pid in s.inflight
    ensures UnitsOwed(PubRel(s, pid, gone))
  {
    var f := s.inflight[pid];
    var m := f.msg;
    SoundParts(s);
    assert m.pid == pid;
    PubRelIs(s, pid, gone);
    AfterCompConcern(m, f.recipient, gone);
    hide Sound, PubRel, AfterComp, Settles, UnitsOwed, AllConcern;
    EventsSettle(s, PubRel(s, pid, gone), m, if f.delivered then [PubCompSent(m)] else AfterComp(m, f.recipient, gone));
    SettlesOwed(s, PubRel(s, pid, gone), m);
  }

  lemma AckOwed(s: State, m: Msg)
    requires UnitsOwed(s)
    ensures UnitsOwed(AppAck(s, m))
  {
    AppAckIs(s, m);
    QueuedConcern(m);
    hide AppAck, Settles, UnitsOwed, AllConcern;
    var z := AppAck(s, m);
    if m in s.callbacks {
      EventsSettle(s, z, m, [AppAcked(m), PubAckSent(m)]);
    } else if m.qos == 2 && m.pid in s.pendingAck && s.pendingAck[m.pid] == m {
      EventsSettle(s, z, m, [AppAcked(m), PubRecSent(m)]);
    } else {
      EventsSettle(s, z, m, [AppAcked(m)]);
    }
    SettlesOwed(s, z, m);
  }

  lemma {:induction false} RunsOwe(s: State, steps: seq<Step>, end: State)
    requires Sound(s) && UnitsOwed(s) && Runs(s, steps, end)
    ensures UnitsOwed(end)
    decreases |steps|
  {
    hide Sound, UnitsOwed, Enabled, Apply;
    if steps != [] {
      StepOwed(s, steps[0]);
      StepKeeps(s, steps[0]);
      RunsOwe(Apply(s, steps[0]), steps[1..], end);
    }
  }

  lemma StepOwed(s: State, e: Step)
    requires Sound(s) && UnitsOwed(s) && Enabled(s, e)
    ensures UnitsOwed(Apply(s, e))
  {
    hide Sound, UnitsOwed, Publish, FinishPut, AppAck, Drain, PubRel;
    if e.PublishStep? {
      PublishOwed(s, e.msg, e.selection);
    } else {
      OtherOwed(s, e);
    }
  }

  /**
   * In every run, whatever the broker does: a unit of Receive Maximum is held only for a message of QoS 1 or 2 received under
   * its identifier and not yet ended by its own PUBACK or PUBCOMP. Every flow that ends gives its unit back.
   */
  lemma UnitsGivenBack(limit: Option<nat>, sessionPresent: bool, steps: seq<Step>, end: State, pid: int)
    requires Runs(Initial(limit, sessionPresent), steps, end) && pid in end.unacked
    ensures exists m: Msg :: m in end.seen && m.qos > 0 && m.pid == pid && PubAckSent(m) !in end.trace && PubCompSent(m) !in end.trace
  {
    InitialSound(limit, sessionPresent);
    RunsOwe(Initial(limit, sessionPresent), steps, end);
    hide Runs, Sound;
    var m :| Owes(end, m, pid);
  }
}
