/** The receiver's side of QoS 0, 1 and 2: routing, acknowledgement, duplicates and Receive Maximum. */
module Inbound {
  import opened Util

  /** One PUBLISH as it arrived; `serial` numbers arrivals and stands for the identity of the packet. */
  datatype Msg = Msg(serial: nat, qos: int, pid: int)

  datatype Recipient = Nobody | Request | Subscription(autoAck: bool)

  predicate Auto(r: Recipient) { !r.Subscription? || r.autoAck }

  /** What happens on a connection, in order, each event with its message. */
  datatype Event =
    | Accepted(msg: Msg)        // a QoS 2 exchange begins
    | Manual(msg: Msg)          // the message goes to a subscription that acknowledges by hand
    | Enqueued(msg: Msg)        // put on the subscription's queue
    | Withdrawn(msg: Msg)       // its entry was detached while it waited for room in the queue
    | Handed(msg: Msg)          // given to a waiting request
    | Unclaimed(msg: Msg)       // nobody to give it to
    | Refused(msg: Msg)         // its recipient was detached when selected
    | Lost(msg: Msg)            // its subscription was detached when PUBREL came
    | Stale(msg: Msg)           // its request could no longer take it when PUBREL came
    | AppAcked(msg: Msg)        // the application called ack()
    | PubAckSent(msg: Msg)
    | PubRecSent(msg: Msg)
    | PubCompSent(msg: Msg)
    | StrayPubComp(pid: int)    // PUBCOMP 0x92 for a PUBREL without an exchange

  predicate Concerns(e: Event, m: Msg) { !e.StrayPubComp? && e.msg == m }

  type Trace = seq<Event>

  ghost predicate Untouched(trace: Trace, m: Msg) { forall e :: e in trace ==> !Concerns(e, m) }

  predicate Delivered(trace: Trace, m: Msg) { Enqueued(m) in trace || Handed(m) in trace }

  /** What must have happened, and what must not, before an event may happen. */
  ghost predicate Justifies(trace: Trace, e: Event) {
    match e
    // one exchange per packet identifier at a time
    case Accepted(m) =>
      m.qos == 2 && Accepted(m) !in trace &&
      forall n :: Accepted(n) in trace && n.pid == m.pid ==> PubCompSent(n) in trace
    case Manual(m) => !Delivered(trace, m)
    // a message reaches the application once, a QoS 2 message only within its exchange
    case Enqueued(m) => !Delivered(trace, m) && (m.qos == 2 ==> Accepted(m) in trace)
    case Handed(m) => !Delivered(trace, m) && (m.qos == 2 ==> Accepted(m) in trace)
    case Withdrawn(m) => Enqueued(m) in trace && (m.qos == 1 ==> PubAckSent(m) !in trace)
    case Unclaimed(m) => !Delivered(trace, m)
    case Refused(m) => !Delivered(trace, m) && PubAckSent(m) !in trace && PubRecSent(m) !in trace
    case Lost(m) => PubCompSent(m) in trace && !Delivered(trace, m)
    case Stale(m) => PubCompSent(m) in trace && !Delivered(trace, m)
    case AppAcked(m) => Enqueued(m) in trace && AppAcked(m) !in trace
    // acknowledged after delivery, by the application where it acknowledges by hand, and never once refused
    case PubAckSent(m) =>
      && m.qos == 1 && (Delivered(trace, m) || Unclaimed(m) in trace) && PubAckSent(m) !in trace
      && Refused(m) !in trace
      && (if Manual(m) in trace then AppAcked(m) in trace else Withdrawn(m) !in trace)
    case PubRecSent(m) =>
      && Accepted(m) in trace && PubCompSent(m) !in trace && Refused(m) !in trace
      && (Manual(m) in trace ==> AppAcked(m) in trace)
    case PubCompSent(m) => PubRecSent(m) in trace && PubCompSent(m) !in trace
    case StrayPubComp(_) => true
  }

  /** Every event of the history was justified when it happened. */
  ghost predicate Justified(trace: Trace) {
    trace != [] ==> Justified(trace[..|trace| - 1]) && Justifies(trace[..|trace| - 1], trace[|trace| - 1])
  }

  datatype Flight = Flight(msg: Msg, recipient: Recipient, delivered: bool)

  /** The read loop waits in `queue.put`; `ack` says that a PUBACK follows. */
  datatype Put = Put(msg: Msg, ack: bool)

  datatype ReplayState = NoSession | Idle | Buffered

  datatype State = State(
    limit: Option<nat>,
    closed: bool,
    unacked: set<int>,
    inflight: map<int, Flight>,
    pendingAck: map<int, Msg>,
    callbacks: set<Msg>,              // QoS 1 messages whose ack() will send PUBACK
    replay: ReplayState,
    held: set<Msg>,
    dropped: set<Msg>,
    blocked: Option<Put>,
    arrived: nat,
    seen: set<Msg>,                   // every message received
    turnedAway: set<Msg>,             // those recognised as duplicates, or that closed the connection
    trace: Trace)

  function Log(s: State, e: Event): State { s.(trace := s.trace + [e]) }

  // What the handlers do with one message.

  /** `_complete(PubAck(...))`: the quota unit goes first. */
  function SendPubAck(s: State, m: Msg): State { Log(s.(unacked := s.unacked - {m.pid}), PubAckSent(m)) }

  /** The message is on its queue; with `ack`, PUBACK follows unless the entry was detached while `put` waited. */
  function Arrive(s: State, m: Msg, ack: bool): State {
    if ack then SendPubAck(Log(s, Enqueued(m)), m) else Log(s, Enqueued(m))
  }

  /**
   * `_deliver`, with a PUBACK to follow when `ack`. The read loop may have to wait for room in the queue; a drain
   * has looked first.
   */
  function Deliver(s: State, m: Msg, r: Recipient, detached: bool, ack: bool, reading: bool): State {
    match r
    case Request => if ack then SendPubAck(Log(s, Handed(m)), m) else Log(s, Handed(m))
    case Nobody => if ack then SendPubAck(Log(s, Unclaimed(m)), m) else Log(s, Unclaimed(m))
    case Subscription(_) =>
      if detached then Log(s, Refused(m))
      else if reading then s.(blocked := Some(Put(m, ack)))
      else Arrive(s, m, ack)
  }

  /** `_deliver_qos1_publish`. */
  function DeliverQoS1(s: State, m: Msg, r: Recipient, detached: bool, reading: bool): State {
    if Auto(r) then Deliver(s, m, r, detached, true, reading)
    else if detached then Log(s, Refused(m))
    else Deliver(Log(s.(callbacks := s.callbacks + {m}), Manual(m)), m, r, false, false, reading)
  }

  /** `_accept_qos2_publish`. */
  function AcceptQoS2(s: State, m: Msg, r: Recipient, detached: bool, reading: bool): State {
    if r.Subscription? && detached then Log(s, Refused(m))
    else if Auto(r) then
      Log(Log(s.(inflight := s.inflight[m.pid := Flight(m, r, false)]), Accepted(m)), PubRecSent(m))
    else
      Deliver(Log(Log(s.(pendingAck := s.pendingAck[m.pid := m]), Accepted(m)), Manual(m)), m, r, false, false, reading)
  }

  /** The outcome of selecting a recipient: the replay layer may keep the message, or be full. */
  datatype Selection = Hold | Overflow | Take(recipient: Recipient, detached: bool)

  function TurnAway(s: State, m: Msg): State { s.(turnedAway := s.turnedAway + {m}) }

  function Route(s: State, m: Msg, sel: Selection): State {
    match sel
    case Hold => s.(held := s.held + {m}, replay := Buffered)
    case Overflow => TurnAway(s.(closed := true), m)
    case Take(r, detached) =>
      if m.qos == 0 then Deliver(s, m, r, detached, false, true)
      else if m.qos == 1 then DeliverQoS1(s, m, r, detached, true)
      else AcceptQoS2(s, m, r, detached, true)
  }

  /** `contains_packet_id`. */
  predicate HeldId(held: set<Msg>, pid: int) { exists m: Msg :: m in held && m.qos > 0 && m.pid == pid }

  /** `_hold_receive_quota`. */
  function HoldQuota(s: State, pid: int): State {
    var t := s.(unacked := s.unacked + {pid});
    if s.limit.Some? && |t.unacked| > s.limit.value then t.(closed := true) else t
  }

  /** The message reaches `select_recipient`: it is no duplicate, and the quota leaves the connection open. */
  predicate Selects(s: State, m: Msg) {
    var t := s.(arrived := s.arrived + 1, seen := s.seen + {m});
    var q := HoldQuota(t, m.pid);
    m.qos == 0 ||
    (!q.closed && !(m.qos == 2 && (m.pid in q.inflight || m.pid in q.pendingAck)) && !HeldId(q.held, m.pid))
  }

  function Publish(s: State, m: Msg, sel: Selection): State {
    var t := s.(arrived := s.arrived + 1, seen := s.seen + {m});
    if m.qos == 0 then Route(t, m, sel)
    else
      var q := HoldQuota(t, m.pid);
      if q.closed then TurnAway(q, m)
      else if m.qos == 2 && m.pid in q.inflight then TurnAway(Log(q, PubRecSent(q.inflight[m.pid].msg)), m)
      else if m.qos == 2 && m.pid in q.pendingAck then TurnAway(q, m)
      else if HeldId(q.held, m.pid) then TurnAway(q, m)
      else Route(q, m, sel)
  }

  /**
   * `gone` says that the recipient chosen at PUBLISH can no longer take the message: its subscription has been
   * detached, or the claim on its request does not pass the guard of `complete` any more.
   */
  function PubRel(s: State, pid: int, gone: bool): State {
    if pid !in s.inflight then Log(s, StrayPubComp(pid))
    else
      var f := s.inflight[pid];
      var done := Log(s.(inflight := s.inflight - {pid}, unacked := s.unacked - {pid}), PubCompSent(f.msg));
      if f.delivered then done
      else if f.recipient.Subscription? && gone then Log(done, Lost(f.msg))
      else if f.recipient.Request? && gone then Log(done, Stale(f.msg))
      else Deliver(done, f.msg, f.recipient, false, false, true)
  }

  /** The queue has room: the read loop goes on. */
  function FinishPut(s: State, detached: bool): State
    requires s.blocked.Some?
  {
    var p := s.blocked.value;
    var t := Arrive(s.(blocked := None), p.msg, p.ack && !detached);
    if detached then Log(t, Withdrawn(p.msg)) else t
  }

  /** `Message.ack()`, first call: whatever callback the message carries. */
  function AppAck(s: State, m: Msg): State {
    var t := Log(s, AppAcked(m));
    if m in s.callbacks then SendPubAck(t.(callbacks := t.callbacks - {m}), m)
    else if m.qos == 2 && m.pid in s.pendingAck && s.pendingAck[m.pid] == m then
      Log(t.(pendingAck := t.pendingAck - {m.pid}, inflight := t.inflight[m.pid := Flight(m, Subscription(false), true)]),
          PubRecSent(m))
    else t
  }

  /** A drain hands on one held message. */
  function Drain(s: State, m: Msg, r: Recipient, detached: bool): State {
    var t := s.(held := s.held - {m});
    if m.qos == 0 then Deliver(t, m, r, detached, false, false)
    else if m.qos == 1 then DeliverQoS1(t, m, r, detached, false)
    else AcceptQoS2(t, m, r, detached, false)
  }

  /** Held messages dropped without acknowledgement. */
  function Drop(s: State, gone: set<Msg>, replay: ReplayState): State {
    s.(dropped := s.dropped + gone, held := s.held - gone, replay := replay)
  }

  datatype Step =
    | PublishStep(msg: Msg, selection: Selection)
    | PubRelStep(pid: int, gone: bool)
    | FinishPutStep(detached: bool)
    | AppAckStep(msg: Msg)
    | DrainStep(msg: Msg, recipient: Recipient, detached: bool)
    | DrainEndStep
    | ExpireStep
    | ClearStep(inHands: set<Msg>)   // the connection is over; a drain under way keeps what it has in its hands

  /** The read loop handles one packet at a time; a message can be acknowledged once it is on its queue. */
  predicate Enabled(s: State, e: Step) {
    && !s.closed
    && match e
       case PublishStep(m, sel) =>
         && s.blocked.None? && m.serial == s.arrived && 0 <= m.qos <= 2
         && (sel.Take? && sel.recipient.Nobody? ==> s.replay.NoSession?)
         && (!sel.Take? ==> !s.replay.NoSession?)
       case PubRelStep(_, _) => s.blocked.None?
       case FinishPutStep(_) => s.blocked.Some?
       case AppAckStep(m) => Enqueued(m) in s.trace && AppAcked(m) !in s.trace
       case DrainStep(m, r, _) => m in s.held && !r.Nobody?
       case DrainEndStep => s.replay.Buffered?
       case ExpireStep => s.replay.Buffered?
       case ClearStep(inHands) => inHands <= s.held
  }

  function Apply(s: State, e: Step): State
    requires Enabled(s, e)
  {
    match e
    case PublishStep(m, sel) => Publish(s, m, sel)
    case PubRelStep(pid, gone) => PubRel(s, pid, gone)
    case FinishPutStep(detached) => FinishPut(s, detached)
    case AppAckStep(m) => AppAck(s, m)
    case DrainStep(m, r, detached) => Drain(s, m, r, detached)
    case DrainEndStep => s.(replay := if s.held != {} then Buffered else Idle)
    case ExpireStep => Drop(s, s.held, if s.held != {} then NoSession else Idle)
    case ClearStep(inHands) => Drop(s, s.held - inHands, NoSession).(closed := true)
  }

  // What always holds.

  ghost predicate Tables(inflight: map<int, Flight>, pendingAck: map<int, Msg>, held: set<Msg>) {
    && (forall pid :: pid in inflight ==> inflight[pid].msg.qos == 2 && inflight[pid].msg.pid == pid)
    && (forall pid :: pid in pendingAck ==> pendingAck[pid].qos == 2 && pendingAck[pid].pid == pid)
    && (forall m :: m in held ==> 0 <= m.qos <= 2)
  }

  /** Identifiers of QoS 2 messages held, awaiting ack() and awaiting PUBREL are pairwise disjoint. */
  ghost predicate IdsDisjoint(inflight: map<int, Flight>, pendingAck: map<int, Msg>, held: set<Msg>) {
    && inflight.Keys !! pendingAck.Keys
    && (forall m :: m in held && m.qos == 2 ==> m.pid !in inflight && m.pid !in pendingAck)
    && (forall m, n :: m in held && n in held && m.qos > 0 && n.qos > 0 && m.pid == n.pid ==> m == n)
  }

  // Where a message is, and what its history must then look like.

  datatype Place = Place(held: bool, dropped: bool, future: bool, flight: Option<Flight>, pending: bool, callback: bool, wait: Option<bool>)

  function PlaceOf(s: State, m: Msg): Place {
    Place(m in s.held, m in s.dropped, m.serial >= s.arrived,
          if m.pid in s.inflight && s.inflight[m.pid].msg == m then Some(s.inflight[m.pid]) else None,
          m.pid in s.pendingAck && s.pendingAck[m.pid] == m,
          m in s.callbacks,
          if s.blocked.Some? && s.blocked.value.msg == m then Some(s.blocked.value.ack) else None)
  }

  const NOWHERE := Place(false, false, false, None, false, false, None)

  /** PUBREC has been sent and PUBREL is awaited. */
  ghost predicate FlightOk(trace: Trace, m: Msg, f: Flight) {
    && Accepted(m) in trace && PubRecSent(m) in trace && PubCompSent(m) !in trace && Refused(m) !in trace
    && (Manual(m) in trace ==> f.delivered && AppAcked(m) in trace)
    && (f.delivered ==> Enqueued(m) in trace)
    && (!f.delivered ==> !Delivered(trace, m))
  }

  /** ack() will send PUBREC. */
  ghost predicate PendingOk(trace: Trace, m: Msg, waits: bool) {
    && Accepted(m) in trace && Manual(m) in trace && AppAcked(m) !in trace && PubCompSent(m) !in trace && Refused(m) !in trace
    && (Enqueued(m) in trace || waits)
  }

  /** ack() will send PUBACK. */
  ghost predicate CallbackOk(trace: Trace, m: Msg, waits: bool) {
    && m.qos == 1 && Manual(m) in trace && AppAcked(m) !in trace && PubAckSent(m) !in trace && Refused(m) !in trace
    && (Enqueued(m) in trace || waits)
  }

  /** The read loop waits for room for it. */
  ghost predicate WaitOk(trace: Trace, m: Msg, ack: bool) {
    && !Delivered(trace, m) && Refused(m) !in trace && AppAcked(m) !in trace
    && (m.qos == 2 ==> Accepted(m) in trace)
    && (ack ==> m.qos == 1 && Manual(m) !in trace && PubAckSent(m) !in trace)
  }

  /** The application has acknowledged by hand; or the message went out, found nobody, or is on a queue still attached. */
  predicate PubAckDue(trace: Trace, m: Msg) {
    if Manual(m) in trace then AppAcked(m) in trace
    else Handed(m) in trace || Unclaimed(m) in trace || (Enqueued(m) in trace && Withdrawn(m) !in trace)
  }

  ghost predicate MsgOk(trace: Trace, m: Msg, p: Place) {
    && (p.held || p.dropped || p.future ==> Untouched(trace, m))
    && !(p.held && p.dropped) && (p.held || p.dropped ==> !p.future)
    && (p.wait.Some? ==> !p.held && !p.dropped && !p.future && p.flight.None?)
    && (p.flight.Some? ==> FlightOk(trace, m, p.flight.value))
    && (p.pending ==> PendingOk(trace, m, p.wait.Some?))
    && (p.callback ==> CallbackOk(trace, m, p.wait.Some?))
    && (p.wait.Some? ==> WaitOk(trace, m, p.wait.value))
    // an exchange stays on record from its start to its PUBCOMP, and then has reached its recipient if there was one
    && (Accepted(m) in trace && PubCompSent(m) !in trace ==> p.flight.Some? || p.pending)
    && (PubCompSent(m) in trace ==> Delivered(trace, m) || Unclaimed(m) in trace || Lost(m) in trace || Stale(m) in trace || p.wait.Some?)
    // acknowledged as soon as may be: at once, or when the application says so
    && (m.qos == 1 && (Handed(m) in trace || Unclaimed(m) in trace) ==> PubAckSent(m) in trace)
    && (m.qos == 1 && Enqueued(m) in trace ==>
          PubAckSent(m) in trace || p.callback || (Withdrawn(m) in trace && Manual(m) !in trace))
    && (Withdrawn(m) in trace ==> Enqueued(m) in trace)
    && (m.qos == 1 && PubAckSent(m) in trace ==> PubAckDue(trace, m))
    && (PubRecSent(m) in trace ==> Accepted(m) in trace && (Manual(m) in trace ==> AppAcked(m) in trace))
    && (Accepted(m) in trace ==> PubRecSent(m) in trace || p.pending)
    && (p.wait == Some(false) && m.qos == 1 ==> p.callback)
    // ack() can be called once the message is on its queue
    && (AppAcked(m) in trace ==> Enqueued(m) in trace)
  }

  ghost predicate AllOk(s: State) { forall m: Msg :: MsgOk(s.trace, m, PlaceOf(s, m)) }

  ghost predicate Sound(s: State) {
    && Tables(s.inflight, s.pendingAck, s.held)
    && IdsDisjoint(s.inflight, s.pendingAck, s.held)
    && AllOk(s)
    && Justified(s.trace)
    && (s.held != {} ==> s.replay.Buffered? || s.closed)
  }

  // One message at a time.

  ghost predicate AllConcern(events: Trace, m: Msg) { forall e :: e in events ==> Concerns(e, m) }

  lemma Elsewhere(trace: Trace, events: Trace, m: Msg, n: Msg, p: Place)
    requires AllConcern(events, m) && n != m && MsgOk(trace, n, p)
    ensures MsgOk(trace + events, n, p)
  {
    assert forall e :: e in events ==> !Concerns(e, n);
    assert forall e :: Concerns(e, n) ==> (e in trace + events <==> e in trace);
  }

  lemma SoundParts(s: State)
    requires Sound(s)
    ensures Tables(s.inflight, s.pendingAck, s.held) && IdsDisjoint(s.inflight, s.pendingAck, s.held) && Justified(s.trace)
    ensures s.held != {} ==> s.replay.Buffered? || s.closed
  {
    hide Tables, IdsDisjoint, AllOk, Justified;
  }

  /** A change that concerns one message needs to be checked for that message only. */
  lemma ForOneMessage(s: State, z: State, m: Msg, events: Trace, p: Place)
    requires Sound(s) && z.trace == s.trace + events && AllConcern(events, m)
    requires forall n: Msg :: PlaceOf(z, n) == if n == m then p else PlaceOf(s, n)
    requires MsgOk(s.trace + events, m, p) && Justified(s.trace + events)
    requires Tables(z.inflight, z.pendingAck, z.held) && IdsDisjoint(z.inflight, z.pendingAck, z.held)
    requires z.held != {} ==> z.replay.Buffered? || z.closed
    ensures Sound(z)
  {
    forall n: Msg
      ensures MsgOk(z.trace, n, PlaceOf(z, n))
    {
      if n != m {
        Elsewhere(s.trace, events, m, n, PlaceOf(s, n));
      }
    }
    hide MsgOk, PlaceOf, Tables, IdsDisjoint, Justified;
  }

  lemma JustifiedOne(trace: Trace, a: Event)
    requires Justified(trace) && Justifies(trace, a)
    ensures Justified(trace + [a])
  {
    assert (trace + [a])[..|trace|] == trace;
    hide Justifies;
  }

  lemma JustifiedTwo(trace: Trace, a: Event, b: Event)
    requires Justified(trace) && Justifies(trace, a) && Justifies(trace + [a], b)
    ensures Justified(trace + [a] + [b]) && trace + [a] + [b] == trace + [a, b]
  {
    JustifiedOne(trace, a);
    JustifiedOne(trace + [a], b);
    hide Justifies, Justified;
  }

  /** A message nobody has done anything with, and that is nowhere on record. */
  ghost predicate New(s: State, m: Msg) { Untouched(s.trace, m) && PlaceOf(s, m) == NOWHERE }

  /** The parts of a state that `Sound` looks at. */
  ghost predicate SameParts(s: State, z: State) {
    && z.inflight == s.inflight && z.pendingAck == s.pendingAck && z.callbacks == s.callbacks && z.held == s.held
    && z.dropped == s.dropped && z.blocked == s.blocked && z.arrived == s.arrived && z.trace == s.trace
    && (z.held != {} ==> z.replay.Buffered? || z.closed)
  }

  lemma PartsKeep(s: State, z: State)
    requires Sound(s) && SameParts(s, z)
    ensures Sound(z) && forall m: Msg :: New(s, m) == New(z, m)
  {
    forall m: Msg
      ensures PlaceOf(z, m) == PlaceOf(s, m)
    {
    }
    hide MsgOk, PlaceOf, Justified;
  }

  /** One or two more events on a message that stays off the record. */
  lemma LoggedOff(s: State, m: Msg, events: Trace)
    requires Sound(s) && PlaceOf(s, m) == NOWHERE && AllConcern(events, m)
    requires Justified(s.trace + events) && MsgOk(s.trace + events, m, NOWHERE)
    ensures Sound(s.(trace := s.trace + events))
  {
    var z := s.(trace := s.trace + events);
    forall n: Msg
      ensures PlaceOf(z, n) == PlaceOf(s, n)
    {
    }
    hide *;
    SoundParts(s);
    ForOneMessage(s, z, m, events, NOWHERE);
  }

  /** Handed on, not claimed, or refused; acknowledged at once where it should be. */
  lemma SettledKeeps(s: State, m: Msg, e: Event, ack: bool)
    requires Sound(s) && New(s, m) && 0 <= m.qos < 2 && (ack ==> m.qos == 1) && (m.qos == 1 ==> ack || e == Refused(m))
    requires e == Handed(m) || e == Unclaimed(m) || e == Enqueued(m) || (e == Refused(m) && !ack)
    ensures Sound(if ack then SendPubAck(Log(s, e), m) else Log(s, e))
  {
    NewMeans(s, m);
    NewNowhere(s, m);
    SettledIs(s, m, e);
    hide *;
    SoundParts(s);
    if ack {
      SettledAckedOk(s.trace, m, e);
      LoggedOff(s, m, [e, PubAckSent(m)]);
      LoggedParts(s, m, [e, PubAckSent(m)]);
      PartsKeep(s.(trace := s.trace + [e, PubAckSent(m)]), SendPubAck(Log(s, e), m));
    } else {
      SettledOk(s.trace, m, e);
      LoggedOff(s, m, [e]);
    }
  }

  lemma NewNowhere(s: State, m: Msg)
    requires New(s, m)
    ensures PlaceOf(s, m) == NOWHERE
  {
  }

  /** Acknowledging at once touches the quota and the history only. */
  lemma SettledIs(s: State, m: Msg, e: Event)
    ensures Log(s, e) == s.(trace := s.trace + [e])
    ensures SendPubAck(Log(s, e), m) == s.(unacked := s.unacked - {m.pid}, trace := s.trace + [e, PubAckSent(m)])
  {
    assert s.trace + [e] + [PubAckSent(m)] == s.trace + [e, PubAckSent(m)];
  }

  lemma LoggedParts(s: State, m: Msg, events: Trace)
    requires s.held != {} ==> s.replay.Buffered? || s.closed
    ensures SameParts(s.(trace := s.trace + events), s.(unacked := s.unacked - {m.pid}, trace := s.trace + events))
  {
  }

  lemma SettledJustified(trace: Trace, m: Msg, e: Event)
    requires Untouched(trace, m) && Justified(trace) && 0 <= m.qos < 2
    requires e == Handed(m) || e == Unclaimed(m) || e == Enqueued(m) || e == Refused(m)
    ensures Justified(trace + [e])
  {
    JustifiedOne(trace, e);
    hide Justified;
  }

  lemma SettledMsgOk(trace: Trace, m: Msg, e: Event)
    requires Untouched(trace, m) && (m.qos == 1 ==> e == Refused(m))
    requires e == Handed(m) || e == Unclaimed(m) || e == Enqueued(m) || e == Refused(m)
    ensures MsgOk(trace + [e], m, NOWHERE) && AllConcern([e], m)
  {
    assert forall x :: x in trace + [e] && Concerns(x, m) ==> x == e;
    hide Untouched;
  }

  lemma SettledOk(trace: Trace, m: Msg, e: Event)
    requires Untouched(trace, m) && Justified(trace) && 0 <= m.qos < 2 && (m.qos == 1 ==> e == Refused(m))
    requires e == Handed(m) || e == Unclaimed(m) || e == Enqueued(m) || e == Refused(m)
    ensures Justified(trace + [e]) && MsgOk(trace + [e], m, NOWHERE) && AllConcern([e], m)
  {
    hide *;
    SettledJustified(trace, m, e);
    SettledMsgOk(trace, m, e);
  }

  lemma SettledAckJustified(trace: Trace, m: Msg, e: Event)
    requires Untouched(trace, m) && Justified(trace) && m.qos == 1
    requires e == Handed(m) || e == Unclaimed(m) || e == Enqueued(m)
    ensures Justified(trace + [e, PubAckSent(m)])
  {
    JustifiedTwo(trace, e, PubAckSent(m));
    hide Justified;
  }

  lemma SettledAckedOk(trace: Trace, m: Msg, e: Event)
    requires Untouched(trace, m) && Justified(trace) && m.qos == 1
    requires e == Handed(m) || e == Unclaimed(m) || e == Enqueued(m)
    ensures Justified(trace + [e, PubAckSent(m)]) && MsgOk(trace + [e, PubAckSent(m)], m, NOWHERE)
    ensures AllConcern([e, PubAckSent(m)], m)
  {
    SettledAckJustified(trace, m, e);
    hide Justified, Justifies;
  }

  lemma WaitKeeps(s: State, m: Msg, ack: bool)
    requires Sound(s) && New(s, m) && 0 <= m.qos < 2 && (ack <==> m.qos == 1) && s.blocked.None?
    ensures Sound(s.(blocked := Some(Put(m, ack))))
  {
    var z := s.(blocked := Some(Put(m, ack)));
    var p := NOWHERE.(wait := Some(ack));
    forall n: Msg
      ensures PlaceOf(z, n) == if n == m then p else PlaceOf(s, n)
    {
    }
    assert s.trace + [] == s.trace;
    assert MsgOk(s.trace, m, p);
    hide *;
    SoundParts(s);
    ForOneMessage(s, z, m, [], p);
  }

  lemma DeliverKeeps(s: State, m: Msg, r: Recipient, detached: bool, ack: bool, reading: bool)
    requires Sound(s) && New(s, m) && 0 <= m.qos < 2 && (ack <==> m.qos == 1) && (reading ==> s.blocked.None?)
    ensures Sound(Deliver(s, m, r, detached, ack, reading))
  {
    hide Sound, New, SendPubAck, Log;
    match r
    case Request => SettledKeeps(s, m, Handed(m), ack);
    case Nobody => SettledKeeps(s, m, Unclaimed(m), ack);
    case Subscription(_) =>
      if detached {
        SettledKeeps(s, m, Refused(m), false);
      } else if reading {
        WaitKeeps(s, m, ack);
      } else {
        SettledKeeps(s, m, Enqueued(m), ack);
      }
  }

  /** A QoS 1 message on its way to a subscription that acknowledges by hand. */
  lemma ManualQoS1Ok(trace: Trace, m: Msg)
    requires Untouched(trace, m) && m.qos == 1 && Justified(trace)
    ensures Justified(trace + [Manual(m)])
    ensures MsgOk(trace + [Manual(m)], m, NOWHERE.(callback := true, wait := Some(false)))
  {
    JustifiedOne(trace, Manual(m));
    hide Justified, Justifies;
  }

  lemma ManualQoS1QueuedOk(trace: Trace, m: Msg)
    requires Untouched(trace, m) && m.qos == 1 && Justified(trace)
    ensures Justified(trace + [Manual(m), Enqueued(m)])
    ensures MsgOk(trace + [Manual(m), Enqueued(m)], m, NOWHERE.(callback := true))
  {
    JustifiedTwo(trace, Manual(m), Enqueued(m));
    hide Justified, Justifies;
  }

  lemma ManualQoS1Is(s: State, m: Msg, reading: bool)
    ensures var t := Log(s.(callbacks := s.callbacks + {m}), Manual(m));
            Deliver(t, m, Subscription(false), false, false, reading) ==
            s.(callbacks := s.callbacks + {m}, blocked := if reading then Some(Put(m, false)) else s.blocked,
               trace := s.trace + if reading then [Manual(m)] else [Manual(m), Enqueued(m)])
  {
    assert s.trace + [Manual(m)] + [Enqueued(m)] == s.trace + [Manual(m), Enqueued(m)];
  }

  lemma ManualQoS1Keeps(s: State, m: Msg, reading: bool)
    requires Sound(s) && New(s, m) && m.qos == 1 && (reading ==> s.blocked.None?)
    ensures var t := Log(s.(callbacks := s.callbacks + {m}), Manual(m));
            Sound(Deliver(t, m, Subscription(false), false, false, reading))
  {
    var events := if reading then [Manual(m)] else [Manual(m), Enqueued(m)];
    var p := NOWHERE.(callback := true, wait := if reading then Some(false) else None);
    var z := s.(callbacks := s.callbacks + {m}, blocked := if reading then Some(Put(m, false)) else s.blocked,
                trace := s.trace + events);
    forall n: Msg
      ensures PlaceOf(z, n) == if n == m then p else PlaceOf(s, n)
    {
    }
    NewMeans(s, m);
    hide *;
    SoundParts(s);
    ManualQoS1Is(s, m, reading);
    ManualQoS1Ok(s.trace, m);
    ManualQoS1QueuedOk(s.trace, m);
    TwoConcern(m);
    ForOneMessage(s, z, m, events, p);
  }

  lemma NewMeans(s: State, m: Msg)
    requires New(s, m)
    ensures Untouched(s.trace, m)
  {
  }

  lemma TwoConcern(m: Msg)
    ensures AllConcern([Manual(m)], m) && AllConcern([Manual(m), Enqueued(m)], m)
    ensures AllConcern([Accepted(m), PubRecSent(m)], m) && AllConcern([Accepted(m), Manual(m)], m)
    ensures AllConcern([Accepted(m), Manual(m), Enqueued(m)], m)
  {
  }

  lemma DeliverQoS1Keeps(s: State, m: Msg, r: Recipient, detached: bool, reading: bool)
    requires Sound(s) && New(s, m) && m.qos == 1 && (reading ==> s.blocked.None?)
    ensures Sound(DeliverQoS1(s, m, r, detached, reading))
  {
    hide Sound, New, Deliver, Log;
    if Auto(r) {
      DeliverKeeps(s, m, r, detached, true, reading);
    } else if detached {
      SettledKeeps(s, m, Refused(m), false);
    } else {
      assert r == Subscription(false);
      ManualQoS1Keeps(s, m, reading);
    }
  }

  // QoS 2.

  /** No exchange is open on `pid`, and no QoS 2 message with it is held. */
  ghost predicate IdFree(s: State, pid: int) {
    pid !in s.inflight && pid !in s.pendingAck && forall n :: n in s.held && n.qos == 2 ==> n.pid != pid
  }

  /** Every exchange ever begun on a free identifier is over. */
  lemma NoneOpen(s: State, m: Msg)
    requires Sound(s) && IdFree(s, m.pid) && m.qos == 2 && Untouched(s.trace, m)
    ensures Justifies(s.trace, Accepted(m))
  {
    forall n: Msg | Accepted(n) in s.trace && n.pid == m.pid
      ensures PubCompSent(n) in s.trace
    {
      assert MsgOk(s.trace, n, PlaceOf(s, n));
    }
  }

  lemma AcceptAutoOk(trace: Trace, m: Msg, r: Recipient)
    requires Untouched(trace, m) && Justified(trace) && Justifies(trace, Accepted(m))
    ensures Justified(trace + [Accepted(m), PubRecSent(m)])
    ensures MsgOk(trace + [Accepted(m), PubRecSent(m)], m, NOWHERE.(flight := Some(Flight(m, r, false))))
  {
    JustifiedTwo(trace, Accepted(m), PubRecSent(m));
    hide Justified;
  }

  /** An exchange put on record under a free identifier. */
  lemma Recorded(s: State, m: Msg, f: Flight)
    requires Tables(s.inflight, s.pendingAck, s.held) && IdsDisjoint(s.inflight, s.pendingAck, s.held)
    requires IdFree(s, m.pid) && m.qos == 2 && f.msg == m
    ensures Tables(s.inflight[m.pid := f], s.pendingAck, s.held) && IdsDisjoint(s.inflight[m.pid := f], s.pendingAck, s.held)
    ensures Tables(s.inflight, s.pendingAck[m.pid := m], s.held) && IdsDisjoint(s.inflight, s.pendingAck[m.pid := m], s.held)
  {
  }

  lemma AcceptAutoKeeps(s: State, m: Msg, r: Recipient)
    requires Sound(s) && New(s, m) && PlaceOf(s, m) == NOWHERE && m.qos == 2 && IdFree(s, m.pid)
    ensures Sound(Log(Log(s.(inflight := s.inflight[m.pid := Flight(m, r, false)]), Accepted(m)), PubRecSent(m)))
  {
    var f, events := Flight(m, r, false), [Accepted(m), PubRecSent(m)];
    var p := NOWHERE.(flight := Some(f));
    var z := s.(inflight := s.inflight[m.pid := f], trace := s.trace + events);
    assert Log(Log(s.(inflight := s.inflight[m.pid := f]), Accepted(m)), PubRecSent(m)) == z;
    RecordedPlaces(s, m, f);
    NewMeans(s, m);
    hide *;
    SoundParts(s);
    NoneOpen(s, m);
    AcceptAutoOk(s.trace, m, r);
    Recorded(s, m, f);
    TwoConcern(m);
    TracePlaces(s.(inflight := s.inflight[m.pid := f]), s.trace + events);
    ForOneMessage(s, z, m, events, p);
  }

  /** An exchange recorded under a free identifier changes the place of its own message only. */
  lemma RecordedPlaces(s: State, m: Msg, f: Flight)
    requires IdFree(s, m.pid) && f.msg == m && PlaceOf(s, m) == NOWHERE
    ensures var z := s.(inflight := s.inflight[m.pid := f]);
            forall n: Msg :: PlaceOf(z, n) == if n == m then NOWHERE.(flight := Some(f)) else PlaceOf(s, n)
  {
  }

  lemma PendingPlaces(s: State, m: Msg, wait: bool)
    requires IdFree(s, m.pid) && PlaceOf(s, m) == NOWHERE && (wait ==> s.blocked.None?)
    ensures var z := s.(pendingAck := s.pendingAck[m.pid := m], blocked := if wait then Some(Put(m, false)) else s.blocked);
            forall n: Msg :: PlaceOf(z, n) ==
              if n == m then NOWHERE.(pending := true, wait := if wait then Some(false) else None) else PlaceOf(s, n)
  {
  }

  lemma TracePlaces(s: State, trace: Trace)
    ensures forall n: Msg :: PlaceOf(s.(trace := trace), n) == PlaceOf(s, n)
  {
  }

  lemma AcceptManualOk(trace: Trace, m: Msg)
    requires Untouched(trace, m) && m.qos == 2 && Justified(trace) && Justifies(trace, Accepted(m))
    ensures Justified(trace + [Accepted(m), Manual(m)])
    ensures MsgOk(trace + [Accepted(m), Manual(m)], m, NOWHERE.(pending := true, wait := Some(false)))
  {
    JustifiedTwo(trace, Accepted(m), Manual(m));
    hide Justified;
  }

  lemma AcceptManualQueuedOk(trace: Trace, m: Msg)
    requires Untouched(trace, m) && m.qos == 2 && Justified(trace) && Justifies(trace, Accepted(m))
    ensures Justified(trace + [Accepted(m), Manual(m), Enqueued(m)])
    ensures MsgOk(trace + [Accepted(m), Manual(m), Enqueued(m)], m, NOWHERE.(pending := true))
  {
    AcceptManualOk(trace, m);
    JustifiedOne(trace + [Accepted(m), Manual(m)], Enqueued(m));
    assert trace + [Accepted(m), Manual(m)] + [Enqueued(m)] == trace + [Accepted(m), Manual(m), Enqueued(m)];
    hide Justified;
  }

  lemma AcceptManualIs(s: State, m: Msg, reading: bool)
    ensures var t := Log(Log(s.(pendingAck := s.pendingAck[m.pid := m]), Accepted(m)), Manual(m));
            Deliver(t, m, Subscription(false), false, false, reading) ==
            s.(pendingAck := s.pendingAck[m.pid := m], blocked := if reading then Some(Put(m, false)) else s.blocked,
               trace := s.trace + if reading then [Accepted(m), Manual(m)] else [Accepted(m), Manual(m), Enqueued(m)])
  {
    assert s.trace + [Accepted(m)] + [Manual(m)] == s.trace + [Accepted(m), Manual(m)];
    assert s.trace + [Accepted(m)] + [Manual(m)] + [Enqueued(m)] == s.trace + [Accepted(m), Manual(m), Enqueued(m)];
  }

  lemma AcceptManualKeeps(s: State, m: Msg, reading: bool)
    requires Sound(s) && New(s, m) && PlaceOf(s, m) == NOWHERE && m.qos == 2 && IdFree(s, m.pid)
    requires reading ==> s.blocked.None?
    ensures var t := Log(Log(s.(pendingAck := s.pendingAck[m.pid := m]), Accepted(m)), Manual(m));
            Sound(Deliver(t, m, Subscription(false), false, false, reading))
  {
    NewMeans(s, m);
    PendingPlaces(s, m, reading);
    hide *;
    var events := if reading then [Accepted(m), Manual(m)] else [Accepted(m), Manual(m), Enqueued(m)];
    var p := NOWHERE.(pending := true, wait := if reading then Some(false) else None);
    var y := s.(pendingAck := s.pendingAck[m.pid := m], blocked := if reading then Some(Put(m, false)) else s.blocked);
    SoundParts(s);
    AcceptManualIs(s, m, reading);
    NoneOpen(s, m);
    AcceptManualOk(s.trace, m);
    AcceptManualQueuedOk(s.trace, m);
    Recorded(s, m, Flight(m, Nobody, false));
    TwoConcern(m);
    TracePlaces(y, s.trace + events);
    ForOneMessage(s, y.(trace := s.trace + events), m, events, p);
  }

  lemma AcceptQoS2Keeps(s: State, m: Msg, r: Recipient, detached: bool, reading: bool)
    requires Sound(s) && New(s, m) && m.qos == 2 && IdFree(s, m.pid) && (reading ==> s.blocked.None?)
    ensures Sound(AcceptQoS2(s, m, r, detached, reading))
  {
    hide Sound, Log, Deliver, IdFree;
    if r.Subscription? && detached {
      RefusedKeeps(s, m);
    } else if Auto(r) {
      AcceptAutoKeeps(s, m, r);
    } else {
      assert r == Subscription(false);
      AcceptManualKeeps(s, m, reading);
    }
  }

  lemma RefusedKeeps(s: State, m: Msg)
    requires Sound(s) && New(s, m)
    ensures Sound(Log(s, Refused(m)))
  {
    JustifiedOne(s.trace, Refused(m));
    LoggedOff(s, m, [Refused(m)]);
  }

  // PUBREL.

  /** An exchange off the record frees its identifier and changes the place of its own message only. */
  lemma FlightRemoved(s: State, pid: int)
    requires Sound(s) && pid in s.inflight
    ensures var m := s.inflight[pid].msg; var z := s.(inflight := s.inflight - {pid});
            && m.pid == pid && m.qos == 2 && PlaceOf(s, m).flight == Some(s.inflight[pid])
            && MsgOk(s.trace, m, PlaceOf(s, m))
            && (forall n: Msg :: PlaceOf(z, n) == if n == m then PlaceOf(s, m).(flight := None) else PlaceOf(s, n))
            && Tables(z.inflight, z.pendingAck, z.held) && IdsDisjoint(z.inflight, z.pendingAck, z.held)
  {
    var m := s.inflight[pid].msg;
    var z := s.(inflight := s.inflight - {pid});
    forall n: Msg
      ensures PlaceOf(z, n) == if n == m then PlaceOf(s, m).(flight := None) else PlaceOf(s, n)
    {
    }
    hide MsgOk, Justified;
  }

  /** A message awaiting PUBREL is in no other place, and the read loop does not wait for it once it was delivered. */
  lemma FlightAlone(s: State, pid: int)
    requires Sound(s) && pid in s.inflight
    ensures var m := s.inflight[pid].msg; var p := PlaceOf(s, m);
            && !p.held && !p.dropped && !p.future && !p.pending && !p.callback
            && (s.inflight[pid].delivered || s.blocked.None? ==> p.wait.None?)
  {
    var m := s.inflight[pid].msg;
    assert MsgOk(s.trace, m, PlaceOf(s, m));
    hide AllOk, Justified;
  }

  lemma CompletedOk(trace: Trace, m: Msg, f: Flight)
    requires Justified(trace) && m.qos == 2 && MsgOk(trace, m, NOWHERE.(flight := Some(f)))
    ensures Justified(trace + [PubCompSent(m)])
    ensures f.delivered ==> MsgOk(trace + [PubCompSent(m)], m, NOWHERE)
    ensures !f.delivered && AppAcked(m) !in trace ==> MsgOk(trace + [PubCompSent(m)], m, NOWHERE.(wait := Some(false)))
    ensures !f.delivered ==> AppAcked(m) !in trace
  {
    JustifiedOne(trace, PubCompSent(m));
    hide Justified;
  }

  lemma CompletedAndOk(trace: Trace, m: Msg, f: Flight, e: Event)
    requires Justified(trace) && m.qos == 2 && MsgOk(trace, m, NOWHERE.(flight := Some(f))) && !f.delivered
    requires e == Handed(m) || e == Unclaimed(m) || e == Lost(m) || e == Stale(m)
    ensures Justified(trace + [PubCompSent(m), e]) && MsgOk(trace + [PubCompSent(m), e], m, NOWHERE)
  {
    JustifiedTwo(trace, PubCompSent(m), e);
    hide Justified;
  }

  /** What follows the PUBCOMP of an undelivered exchange. */
  function AfterComp(m: Msg, r: Recipient, gone: bool): Trace {
    match r
    case Request => if gone then [PubCompSent(m), Stale(m)] else [PubCompSent(m), Handed(m)]
    case Nobody => [PubCompSent(m), Unclaimed(m)]
    case Subscription(_) => if gone then [PubCompSent(m), Lost(m)] else [PubCompSent(m)]
  }

  lemma PubRelIs(s: State, pid: int, gone: bool)
    requires pid in s.inflight
    ensures var f := s.inflight[pid]; var m := f.msg;
            PubRel(s, pid, gone) ==
            s.(inflight := s.inflight - {pid}, unacked := s.unacked - {pid},
               trace := s.trace + (if f.delivered then [PubCompSent(m)] else AfterComp(m, f.recipient, gone)),
               blocked := if !f.delivered && f.recipient.Subscription? && !gone then Some(Put(m, false)) else s.blocked)
  {
    var f := s.inflight[pid];
    var m := f.msg;
    assert s.trace + [PubCompSent(m)] + [Handed(m)] == s.trace + [PubCompSent(m), Handed(m)];
    assert s.trace + [PubCompSent(m)] + [Unclaimed(m)] == s.trace + [PubCompSent(m), Unclaimed(m)];
    assert s.trace + [PubCompSent(m)] + [Lost(m)] == s.trace + [PubCompSent(m), Lost(m)];
    assert s.trace + [PubCompSent(m)] + [Stale(m)] == s.trace + [PubCompSent(m), Stale(m)];
  }

  /** Waiting for room is one message's place; quota and history are nobody's. */
  lemma WaitPlaces(s: State, z: State, m: Msg, wait: bool)
    requires z == s.(unacked := z.unacked, trace := z.trace, blocked := if wait then Some(Put(m, false)) else s.blocked)
    requires s.blocked.None?
    ensures forall n: Msg :: PlaceOf(z, n) == if n == m && wait then PlaceOf(s, n).(wait := Some(false)) else PlaceOf(s, n)
  {
  }

  lemma PubRelKeeps(s: State, pid: int, gone: bool)
    requires Sound(s) && s.blocked.None? && pid in s.inflight
    ensures Sound(PubRel(s, pid, gone))
  {
    var f := s.inflight[pid];
    var m := f.msg;
    FlightRemoved(s, pid);
    FlightAlone(s, pid);
    PubRelIs(s, pid, gone);
    var events := if f.delivered then [PubCompSent(m)] else AfterComp(m, f.recipient, gone);
    var wait := !f.delivered && f.recipient.Subscription? && !gone;
    AfterCompConcern(m, f.recipient, gone);
    AfterCompIs(m, f.recipient, gone);
    hide *;
    assert PlaceOf(s, m) == NOWHERE.(flight := Some(f));
    SoundParts(s);
    CompletedOk(s.trace, m, f);
    if !f.delivered {
      CompletedAndOk(s.trace, m, f, Handed(m));
      CompletedAndOk(s.trace, m, f, Unclaimed(m));
      CompletedAndOk(s.trace, m, f, Lost(m));
      CompletedAndOk(s.trace, m, f, Stale(m));
    }
    var z := PubRel(s, pid, gone);
    WaitPlaces(s.(inflight := s.inflight - {pid}), z, m, wait);
    ForOneMessage(s, z, m, events, NOWHERE.(wait := if wait then Some(false) else None));
  }

  lemma AfterCompConcern(m: Msg, r: Recipient, gone: bool)
    ensures AllConcern(AfterComp(m, r, gone), m) && AllConcern([PubCompSent(m)], m)
  {
  }

  lemma AfterCompIs(m: Msg, r: Recipient, gone: bool)
    ensures r.Request? ==> AfterComp(m, r, gone) == if gone then [PubCompSent(m), Stale(m)] else [PubCompSent(m), Handed(m)]
    ensures r.Nobody? ==> AfterComp(m, r, gone) == [PubCompSent(m), Unclaimed(m)]
    ensures r.Subscription? ==> AfterComp(m, r, gone) == if gone then [PubCompSent(m), Lost(m)] else [PubCompSent(m)]
  {
  }

  lemma StrayJustified(trace: Trace, pid: int)
    requires Justified(trace)
    ensures Justified(trace + [StrayPubComp(pid)])
  {
    JustifiedOne(trace, StrayPubComp(pid));
  }

  lemma StrayKeeps(s: State, pid: int)
    requires Sound(s)
    ensures Sound(Log(s, StrayPubComp(pid)))
  {
    hide MsgOk, PlaceOf, Justified, Tables, IdsDisjoint;
    var z := Log(s, StrayPubComp(pid));
    StrayJustified(s.trace, pid);
    TracePlaces(s, z.trace);
    forall n: Msg
      ensures MsgOk(z.trace, n, PlaceOf(z, n))
    {
      StrayOk(s.trace, pid, n, PlaceOf(s, n));
    }
  }

  lemma StrayOk(trace: Trace, pid: int, n: Msg, p: Place)
    requires MsgOk(trace, n, p)
    ensures MsgOk(trace + [StrayPubComp(pid)], n, p)
  {
  }

  // The read loop goes on after waiting for room.

  /** What the end of a wait adds to the history. */
  function Finished(m: Msg, ack: bool, detached: bool): Trace {
    if detached then [Enqueued(m), Withdrawn(m)] else if ack then [Enqueued(m), PubAckSent(m)] else [Enqueued(m)]
  }

  lemma FinishPlainOk(trace: Trace, m: Msg, p: Place)
    requires Justified(trace) && MsgOk(trace, m, p) && p.wait == Some(false)
    ensures Justified(trace + [Enqueued(m)]) && MsgOk(trace + [Enqueued(m)], m, p.(wait := None))
  {
    JustifiedOne(trace, Enqueued(m));
    hide Justified, Justifies;
  }

  lemma FinishAckedOk(trace: Trace, m: Msg, p: Place)
    requires Justified(trace) && MsgOk(trace, m, p) && p.wait == Some(true)
    ensures Justified(trace + [Enqueued(m), PubAckSent(m)])
    ensures MsgOk(trace + [Enqueued(m), PubAckSent(m)], m, p.(wait := None))
  {
    hide Justified, Justifies, MsgOk;
    PutAckedOk(trace, m, p);
    PutAckedJustified(trace, m, p);
  }

  lemma PutAckedJustified(trace: Trace, m: Msg, p: Place)
    requires Justified(trace) && MsgOk(trace, m, p) && p.wait == Some(true)
    ensures Justified(trace + [Enqueued(m), PubAckSent(m)])
  {
    JustifiedTwo(trace, Enqueued(m), PubAckSent(m));
    hide Justified;
  }

  lemma PutAckedOk(trace: Trace, m: Msg, p: Place)
    requires MsgOk(trace, m, p) && p.wait == Some(true)
    ensures MsgOk(trace + [Enqueued(m), PubAckSent(m)], m, p.(wait := None))
  {
    var more := [Enqueued(m), PubAckSent(m)];
    assert forall e :: e in trace + more <==> e in trace || e == Enqueued(m) || e == PubAckSent(m);
  }

  lemma FinishDetachedOk(trace: Trace, m: Msg, p: Place)
    requires Justified(trace) && MsgOk(trace, m, p) && p.wait.Some?
    ensures Justified(trace + [Enqueued(m), Withdrawn(m)])
    ensures MsgOk(trace + [Enqueued(m), Withdrawn(m)], m, p.(wait := None))
  {
    hide Justified, Justifies, MsgOk;
    WithdrawnOk(trace, m, p);
    WithdrawnJustified(trace, m, p);
  }

  lemma WithdrawnJustified(trace: Trace, m: Msg, p: Place)
    requires Justified(trace) && MsgOk(trace, m, p) && p.wait.Some?
    ensures Justified(trace + [Enqueued(m), Withdrawn(m)])
  {
    JustifiedTwo(trace, Enqueued(m), Withdrawn(m));
    hide Justified;
  }

  lemma WithdrawnOk(trace: Trace, m: Msg, p: Place)
    requires MsgOk(trace, m, p) && p.wait.Some?
    ensures MsgOk(trace + [Enqueued(m), Withdrawn(m)], m, p.(wait := None))
  {
    var more := [Enqueued(m), Withdrawn(m)];
    assert forall e :: e in trace + more <==> e in trace || e == Enqueued(m) || e == Withdrawn(m);
  }

  lemma FinishOk(trace: Trace, m: Msg, p: Place, detached: bool)
    requires Justified(trace) && MsgOk(trace, m, p) && p.wait.Some?
    ensures var events := Finished(m, p.wait.value, detached);
            Justified(trace + events) && AllConcern(events, m) && MsgOk(trace + events, m, p.(wait := None))
  {
    hide Justified, Justifies, MsgOk;
    if detached {
      FinishDetachedOk(trace, m, p);
    } else if p.wait.value {
      FinishAckedOk(trace, m, p);
    } else {
      FinishPlainOk(trace, m, p);
    }
  }

  lemma FinishIs(s: State, detached: bool)
    requires s.blocked.Some?
    ensures var Put(m, ack) := s.blocked.value;
            FinishPut(s, detached) ==
            s.(blocked := None, unacked := if ack && !detached then s.unacked - {m.pid} else s.unacked,
               trace := s.trace + Finished(m, ack, detached))
  {
    var m := s.blocked.value.msg;
    assert s.trace + [Enqueued(m)] + [PubAckSent(m)] == s.trace + [Enqueued(m), PubAckSent(m)];
    assert s.trace + [Enqueued(m)] + [Withdrawn(m)] == s.trace + [Enqueued(m), Withdrawn(m)];
  }

  lemma FinishPlaces(s: State, z: State)
    requires s.blocked.Some? && z == s.(blocked := None, unacked := z.unacked, trace := z.trace)
    ensures forall n: Msg :: PlaceOf(z, n) ==
              if n == s.blocked.value.msg then PlaceOf(s, n).(wait := None) else PlaceOf(s, n)
    ensures PlaceOf(s, s.blocked.value.msg).wait == Some(s.blocked.value.ack)
  {
  }

  lemma MsgIsOk(s: State, m: Msg)
    requires Sound(s)
    ensures MsgOk(s.trace, m, PlaceOf(s, m))
  {
    hide MsgOk, PlaceOf;
  }

  lemma QueuedConcern(m: Msg)
    ensures AllConcern([PubRecSent(m)], m)
    ensures AllConcern([AppAcked(m)], m) && AllConcern([AppAcked(m), PubAckSent(m)], m) && AllConcern([AppAcked(m), PubRecSent(m)], m)
  {
  }

  lemma FinishPutKeeps(s: State, detached: bool)
    requires Sound(s) && s.blocked.Some?
    ensures Sound(FinishPut(s, detached))
  {
    var Put(m, ack) := s.blocked.value;
    var z := FinishPut(s, detached);
    FinishIs(s, detached);
    FinishPlaces(s, z);
    hide *;
    var p := PlaceOf(s, m);
    MsgIsOk(s, m);
    SoundParts(s);
    FinishOk(s.trace, m, p, detached);
    ForOneMessage(s, z, m, Finished(m, ack, detached), p.(wait := None));
  }

  // ack().

  lemma AckedOk(trace: Trace, m: Msg, p: Place)
    requires Justified(trace) && MsgOk(trace, m, p) && Enqueued(m) in trace && AppAcked(m) !in trace
    ensures p.wait.None? && Justified(trace + [AppAcked(m)])
    ensures !p.callback && !p.pending ==> MsgOk(trace + [AppAcked(m)], m, p)
  {
    JustifiedOne(trace, AppAcked(m));
    hide Justified;
  }

  lemma AckedPubAckOk(trace: Trace, m: Msg, p: Place)
    requires Justified(trace) && MsgOk(trace, m, p) && Enqueued(m) in trace && AppAcked(m) !in trace && p.callback
    ensures Justified(trace + [AppAcked(m), PubAckSent(m)])
    ensures MsgOk(trace + [AppAcked(m), PubAckSent(m)], m, p.(callback := false))
  {
    JustifiedTwo(trace, AppAcked(m), PubAckSent(m));
    NoExchangeBelowTwo(trace, m);
    hide Justified;
  }

  /** Only QoS 2 messages take part in exchanges. */
  lemma {:induction false} NoExchangeBelowTwo(trace: Trace, m: Msg)
    requires Justified(trace) && m.qos != 2
    ensures Accepted(m) !in trace && PubRecSent(m) !in trace && PubCompSent(m) !in trace
    decreases |trace|
  {
    if trace != [] {
      NoExchangeBelowTwo(trace[..|trace| - 1], m);
      assert trace == trace[..|trace| - 1] + [trace[|trace| - 1]];
    }
  }

  lemma AckedPubRecOk(trace: Trace, m: Msg, p: Place)
    requires Justified(trace) && MsgOk(trace, m, p) && Enqueued(m) in trace && AppAcked(m) !in trace
    requires p.pending && p.flight.None? && !p.callback
    ensures Justified(trace + [AppAcked(m), PubRecSent(m)])
    ensures MsgOk(trace + [AppAcked(m), PubRecSent(m)], m, p.(pending := false, flight := Some(Flight(m, Subscription(false), true))))
  {
    JustifiedTwo(trace, AppAcked(m), PubRecSent(m));
    hide Justified;
  }

  lemma AppAckPlaces(s: State, z: State, m: Msg)
    requires z == s.(unacked := z.unacked, trace := z.trace, callbacks := s.callbacks - {m})
    ensures forall n: Msg :: PlaceOf(z, n) == if n == m then PlaceOf(s, n).(callback := false) else PlaceOf(s, n)
  {
  }

  lemma PendingToFlight(s: State, z: State, m: Msg)
    requires Tables(s.inflight, s.pendingAck, s.held) && IdsDisjoint(s.inflight, s.pendingAck, s.held)
    requires m.pid in s.pendingAck && s.pendingAck[m.pid] == m
    requires var f := Flight(m, Subscription(false), true);
             z == s.(trace := z.trace, pendingAck := s.pendingAck - {m.pid}, inflight := s.inflight[m.pid := f])
    ensures forall n: Msg :: PlaceOf(z, n) ==
              if n == m then PlaceOf(s, n).(pending := false, flight := Some(Flight(m, Subscription(false), true))) else PlaceOf(s, n)
    ensures Tables(z.inflight, z.pendingAck, z.held) && IdsDisjoint(z.inflight, z.pendingAck, z.held)
    ensures PlaceOf(s, m).pending && PlaceOf(s, m).flight.None?
  {
  }

  lemma AppAckIs(s: State, m: Msg)
    ensures m in s.callbacks ==>
              AppAck(s, m) == s.(callbacks := s.callbacks - {m}, unacked := s.unacked - {m.pid},
                                 trace := s.trace + [AppAcked(m), PubAckSent(m)])
    ensures m !in s.callbacks && m.qos == 2 && m.pid in s.pendingAck && s.pendingAck[m.pid] == m ==>
              AppAck(s, m) == s.(pendingAck := s.pendingAck - {m.pid},
                                 inflight := s.inflight[m.pid := Flight(m, Subscription(false), true)],
                                 trace := s.trace + [AppAcked(m), PubRecSent(m)])
    ensures m !in s.callbacks && !(m.qos == 2 && m.pid in s.pendingAck && s.pendingAck[m.pid] == m) ==>
              AppAck(s, m) == s.(trace := s.trace + [AppAcked(m)])
  {
    assert s.trace + [AppAcked(m)] + [PubAckSent(m)] == s.trace + [AppAcked(m), PubAckSent(m)];
    assert s.trace + [AppAcked(m)] + [PubRecSent(m)] == s.trace + [AppAcked(m), PubRecSent(m)];
  }

  lemma PlaceParts(s: State, m: Msg)
    ensures PlaceOf(s, m).callback <==> m in s.callbacks
    ensures PlaceOf(s, m).pending <==> m.pid in s.pendingAck && s.pendingAck[m.pid] == m
  {
  }

  /** Callbacks that send PUBACK belong to QoS 1, those that send PUBREC to QoS 2. */
  lemma CallbackQoS(s: State, m: Msg)
    requires Sound(s)
    ensures m in s.callbacks ==> m.qos == 1
    ensures m.pid in s.pendingAck && s.pendingAck[m.pid] == m ==> m.qos == 2
  {
    MsgIsOk(s, m);
    hide AllOk, Justified;
  }

  lemma AppAckKeeps(s: State, m: Msg)
    requires Sound(s) && Enqueued(m) in s.trace && AppAcked(m) !in s.trace
    ensures Sound(AppAck(s, m))
  {
    var z := AppAck(s, m);
    var p := PlaceOf(s, m);
    hide *;
    AppAckIs(s, m);
    PlaceParts(s, m);
    MsgIsOk(s, m);
    CallbackQoS(s, m);
    SoundParts(s);
    QueuedConcern(m);
    AckedOk(s.trace, m, p);
    if m in s.callbacks {
      AckedPubAckOk(s.trace, m, p);
      AppAckPlaces(s, z, m);
      ForOneMessage(s, z, m, [AppAcked(m), PubAckSent(m)], p.(callback := false));
    } else if m.pid in s.pendingAck && s.pendingAck[m.pid] == m {
      PendingToFlight(s, z, m);
      AckedPubRecOk(s.trace, m, p);
      ForOneMessage(s, z, m, [AppAcked(m), PubRecSent(m)], p.(pending := false, flight := Some(Flight(m, Subscription(false), true))));
    } else {
      TracePlaces(s, z.trace);
      ForOneMessage(s, z, m, [AppAcked(m)], p);
    }
  }

  // Duplicates.

  lemma DuplicateOk(trace: Trace, m: Msg, p: Place)
    requires Justified(trace) && MsgOk(trace, m, p) && p.flight.Some?
    ensures Justified(trace + [PubRecSent(m)]) && MsgOk(trace + [PubRecSent(m)], m, p)
  {
    JustifiedOne(trace, PubRecSent(m));
    hide Justified;
  }

  /** A duplicate PUBLISH of an exchange awaiting PUBREL is answered with its PUBREC again. */
  lemma DuplicateKeeps(s: State, pid: int)
    requires Sound(s) && pid in s.inflight
    ensures Sound(Log(s, PubRecSent(s.inflight[pid].msg)))
  {
    var m := s.inflight[pid].msg;
    FlightRemoved(s, pid);
    hide MsgOk, Justified, AllOk, Tables, IdsDisjoint, PlaceOf;
    DuplicateOk(s.trace, m, PlaceOf(s, m));
    QueuedConcern(m);
    TracePlaces(s, s.trace + [PubRecSent(m)]);
    ForOneMessage(s, Log(s, PubRecSent(m)), m, [PubRecSent(m)], PlaceOf(s, m));
  }

  // Arrival, and the replay layer.

  /** A message just received is new. */
  lemma ArrivedKeeps(s: State, m: Msg)
    requires Sound(s) && m.serial == s.arrived
    ensures var z := s.(arrived := s.arrived + 1, seen := s.seen + {m}); Sound(z) && New(z, m)
  {
    var z := s.(arrived := s.arrived + 1, seen := s.seen + {m});
    forall n: Msg
      ensures MsgOk(z.trace, n, PlaceOf(z, n))
    {
      MsgIsOk(s, n);
      assert PlaceOf(z, n) == PlaceOf(s, n).(future := n.serial >= z.arrived);
      LessFuture(s.trace, n, PlaceOf(s, n), n.serial >= z.arrived);
    }
    MsgIsOk(s, m);
    FutureIsNowhere(s.trace, m, PlaceOf(s, m));
    hide MsgOk, Justified, AllOk, Tables, IdsDisjoint;
  }

  lemma LessFuture(trace: Trace, n: Msg, p: Place, future: bool)
    requires MsgOk(trace, n, p) && (future ==> p.future)
    ensures MsgOk(trace, n, p.(future := future))
  {
  }

  lemma FutureIsNowhere(trace: Trace, m: Msg, p: Place)
    requires MsgOk(trace, m, p) && p.future
    ensures Untouched(trace, m) && p == NOWHERE.(future := true)
  {
  }

  lemma HoldKeeps(s: State, m: Msg)
    requires Sound(s) && New(s, m) && 0 <= m.qos <= 2 && !s.replay.NoSession?
    requires m.qos == 2 ==> IdFree(s, m.pid)
    requires m.qos > 0 ==> !HeldId(s.held, m.pid)
    ensures Sound(s.(held := s.held + {m}, replay := Buffered))
  {
    var z := s.(held := s.held + {m}, replay := Buffered);
    var p := NOWHERE.(held := true);
    forall n: Msg
      ensures PlaceOf(z, n) == if n == m then p else PlaceOf(s, n)
    {
    }
    NewMeans(s, m);
    HeldIds(s, m);
    hide PlaceOf, Tables, IdsDisjoint, AllOk, Justified, New, HeldId;
    assert s.trace + [] == s.trace;
    assert MsgOk(s.trace, m, p);
    hide MsgOk;
    ForOneMessage(s, z, m, [], p);
  }

  lemma HeldIds(s: State, m: Msg)
    requires Tables(s.inflight, s.pendingAck, s.held) && IdsDisjoint(s.inflight, s.pendingAck, s.held) && 0 <= m.qos <= 2
    requires m.qos == 2 ==> IdFree(s, m.pid)
    requires m.qos > 0 ==> !HeldId(s.held, m.pid)
    ensures Tables(s.inflight, s.pendingAck, s.held + {m}) && IdsDisjoint(s.inflight, s.pendingAck, s.held + {m})
  {
  }

  /** A held message taken out is new again, and its identifier is free. */
  lemma UnholdKeeps(s: State, m: Msg)
    requires Sound(s) && m in s.held
    ensures var z := s.(held := s.held - {m});
            Sound(z) && New(z, m) && 0 <= m.qos <= 2 && (m.qos == 2 ==> IdFree(z, m.pid))
  {
    var z := s.(held := s.held - {m});
    forall n: Msg
      ensures PlaceOf(z, n) == if n == m then PlaceOf(s, m).(held := false) else PlaceOf(s, n)
    {
    }
    MsgIsOk(s, m);
    HeldIsAlone(s.trace, m, PlaceOf(s, m));
    assert s.trace + [] == s.trace;
    hide AllOk, Justified, PlaceOf;
    UntouchedNowhere(s.trace, m);
    hide MsgOk;
    ForOneMessage(s, z, m, [], NOWHERE);
  }

  lemma HeldIsAlone(trace: Trace, m: Msg, p: Place)
    requires MsgOk(trace, m, p) && p.held
    ensures Untouched(trace, m) && p == NOWHERE.(held := true)
  {
  }

  lemma UntouchedNowhere(trace: Trace, m: Msg)
    requires Untouched(trace, m)
    ensures MsgOk(trace, m, NOWHERE)
  {
  }

  /** Expiry and clearing drop what is held. */
  lemma DropKeeps(s: State, gone: set<Msg>, replay: ReplayState, closed: bool)
    requires Sound(s) && gone <= s.held && (gone == s.held || closed)
    ensures Sound(Drop(s, gone, replay).(closed := closed))
  {
    var z := Drop(s, gone, replay).(closed := closed);
    forall n: Msg
      ensures MsgOk(z.trace, n, PlaceOf(z, n))
    {
      MsgIsOk(s, n);
      var p := PlaceOf(s, n);
      assert PlaceOf(z, n) == if n in gone then p.(held := false, dropped := true) else p;
      DroppedOk(s.trace, n, p);
    }
    hide MsgOk, PlaceOf, Justified;
  }

  lemma DroppedOk(trace: Trace, n: Msg, p: Place)
    requires MsgOk(trace, n, p)
    ensures p.held ==> MsgOk(trace, n, p.(held := false, dropped := true))
  {
  }

  // Whole handlers.

  lemma RouteKeeps(s: State, m: Msg, sel: Selection)
    requires Sound(s) && New(s, m) && 0 <= m.qos <= 2 && s.blocked.None?
    requires !sel.Take? ==> !s.replay.NoSession?
    requires (m.qos == 2 ==> IdFree(s, m.pid)) && (m.qos > 0 ==> !HeldId(s.held, m.pid))
    ensures Sound(Route(s, m, sel))
  {
    hide Sound, New, IdFree, HeldId, Deliver, DeliverQoS1, AcceptQoS2;
    match sel
    case Hold => HoldKeeps(s, m);
    case Overflow =>
      ClosedKeeps(s);
      AwayKeeps(s.(closed := true), m);
    case Take(r, detached) =>
      if m.qos == 0 {
        DeliverKeeps(s, m, r, detached, false, true);
      } else if m.qos == 1 {
        DeliverQoS1Keeps(s, m, r, detached, true);
      } else {
        AcceptQoS2Keeps(s, m, r, detached, true);
      }
  }

  lemma ClosedKeeps(s: State)
    requires Sound(s)
    ensures Sound(s.(closed := true))
  {
    SoundParts(s);
    PartsKeep(s, s.(closed := true));
    hide Sound;
  }

  lemma AwayKeeps(s: State, m: Msg)
    requires Sound(s)
    ensures Sound(TurnAway(s, m))
  {
    SoundParts(s);
    PartsKeep(s, TurnAway(s, m));
    hide Sound;
  }

  lemma QuotaKeeps(s: State, pid: int, m: Msg)
    requires Sound(s) && New(s, m)
    ensures var z := HoldQuota(s, pid); Sound(z) && New(z, m) && SameParts(s, z)
  {
    SoundParts(s);
    PartsKeep(s, HoldQuota(s, pid));
    hide Sound, New;
  }

  lemma IdIsFree(s: State, pid: int)
    requires pid !in s.inflight && pid !in s.pendingAck && !HeldId(s.held, pid)
    ensures IdFree(s, pid)
  {
  }

  lemma PublishKeeps(s: State, m: Msg, sel: Selection)
    requires Sound(s) && Enabled(s, PublishStep(m, sel))
    ensures Sound(Publish(s, m, sel))
  {
    ArrivedKeeps(s, m);
    var t := s.(arrived := s.arrived + 1, seen := s.seen + {m});
    hide Sound, New, HeldId, Route, IdFree, PlaceOf;
    if m.qos == 0 {
      RouteKeeps(t, m, sel);
    } else {
      QuotaKeeps(t, m.pid, m);
      var q := HoldQuota(t, m.pid);
      AwayKeeps(q, m);
      if !q.closed {
        if m.qos == 2 && m.pid in q.inflight {
          DuplicateKeeps(q, m.pid);
          AwayKeeps(Log(q, PubRecSent(q.inflight[m.pid].msg)), m);
        } else if !HeldId(q.held, m.pid) && !(m.qos == 2 && m.pid in q.pendingAck) {
          if m.qos == 2 {
            IdIsFree(q, m.pid);
          }
          RouteKeeps(q, m, sel);
        }
      }
    }
  }

  lemma DrainKeeps(s: State, m: Msg, r: Recipient, detached: bool)
    requires Sound(s) && m in s.held
    ensures Sound(Drain(s, m, r, detached))
  {
    UnholdKeeps(s, m);
    hide Sound, New, IdFree, Deliver, DeliverQoS1, AcceptQoS2;
    var t := s.(held := s.held - {m});
    if m.qos == 0 {
      DeliverKeeps(t, m, r, detached, false, false);
    } else if m.qos == 1 {
      DeliverQoS1Keeps(t, m, r, detached, false);
    } else {
      AcceptQoS2Keeps(t, m, r, detached, false);
    }
  }

  lemma StepKeeps(s: State, e: Step)
    requires Sound(s) && Enabled(s, e)
    ensures Sound(Apply(s, e))
  {
    match e
    case PublishStep(m, sel) => PublishKeeps(s, m, sel);
    case PubRelStep(pid, detached) =>
      if pid in s.inflight {
        PubRelKeeps(s, pid, detached);
      } else {
        StrayKeeps(s, pid);
      }
      hide Sound;
    case FinishPutStep(detached) => FinishPutKeeps(s, detached);
    case AppAckStep(m) => AppAckKeeps(s, m);
    case DrainStep(m, r, detached) => DrainKeeps(s, m, r, detached);
    case DrainEndStep => PartsKeep(s, Apply(s, e));
    case ExpireStep => DropKeeps(s, s.held, if s.held != {} then NoSession else Idle, s.closed);
    case ClearStep(inHands) => DropKeeps(s, s.held - inHands, NoSession, true);
  }

  // Receive Maximum.

  ghost predicate QuotaKept(s: State) { !s.closed && s.limit.Some? ==> |s.unacked| <= s.limit.value }

  /** Acknowledging can only shrink the set, and a PUBLISH that would outgrow the limit closes the connection. */
  ghost predicate QuotaSmaller(s: State, z: State) { z.limit == s.limit && z.unacked <= s.unacked && (s.closed ==> z.closed) }

  lemma Smaller(s: State, z: State)
    requires QuotaKept(s) && QuotaSmaller(s, z)
    ensures QuotaKept(z)
  {
    var gone := s.unacked - z.unacked;
    assert s.unacked == z.unacked + gone;
  }

  lemma DeliverSmaller(s: State, m: Msg, r: Recipient, detached: bool, ack: bool, reading: bool)
    ensures QuotaSmaller(s, Deliver(s, m, r, detached, ack, reading))
    ensures Deliver(s, m, r, detached, ack, reading).unacked >= s.unacked - {m.pid}
    ensures !ack ==> Deliver(s, m, r, detached, ack, reading).unacked == s.unacked
  {
  }

  lemma RouteSmaller(s: State, m: Msg, sel: Selection)
    ensures QuotaSmaller(s, Route(s, m, sel))
  {
    if sel.Take? {
      var Take(r, detached) := sel;
      DeliverSmaller(s, m, r, detached, m.qos == 1, true);
      DeliverSmaller(Log(s.(callbacks := s.callbacks + {m}), Manual(m)), m, r, false, false, true);
      DeliverSmaller(Log(Log(s.(pendingAck := s.pendingAck[m.pid := m]), Accepted(m)), Manual(m)), m, r, false, false, true);
    }
    hide Deliver;
  }

  lemma QuotaHeld(s: State, pid: int)
    ensures QuotaKept(HoldQuota(s, pid))
  {
  }

  lemma AwayQuota(s: State, m: Msg, e: Event)
    requires QuotaKept(s)
    ensures QuotaKept(TurnAway(s, m)) && QuotaKept(TurnAway(Log(s, e), m))
  {
  }

  lemma ArrivedQuota(s: State, m: Msg)
    requires QuotaKept(s)
    ensures QuotaKept(s.(arrived := s.arrived + 1, seen := s.seen + {m}))
  {
  }

  lemma PublishQuota(s: State, m: Msg, sel: Selection)
    requires QuotaKept(s) && !s.closed
    ensures QuotaKept(Publish(s, m, sel))
  {
    hide *;
    var t := s.(arrived := s.arrived + 1, seen := s.seen + {m});
    var q := HoldQuota(t, m.pid);
    PublishIs(s, m, sel);
    ArrivedQuota(s, m);
    QuotaHeld(t, m.pid);
    RouteSmaller(t, m, sel);
    Smaller(t, Route(t, m, sel));
    RouteSmaller(q, m, sel);
    Smaller(q, Route(q, m, sel));
    AwayQuota(q, m, if m.pid in q.inflight then PubRecSent(q.inflight[m.pid].msg) else StrayPubComp(0));
  }

  lemma StepQuota(s: State, e: Step)
    requires QuotaKept(s) && Enabled(s, e)
    ensures QuotaKept(Apply(s, e))
  {
    match e
    case PublishStep(m, sel) => PublishQuota(s, m, sel);
    case DrainStep(m, r, detached) =>
      var t := s.(held := s.held - {m});
      DeliverSmaller(t, m, r, detached, false, false);
      QoSSmaller(t, m, r, detached, false);
      Smaller(t, Apply(s, e));
    case _ =>
      assert QuotaSmaller(s, Apply(s, e));
      Smaller(s, Apply(s, e));
  }

  lemma QoSSmaller(s: State, m: Msg, r: Recipient, detached: bool, reading: bool)
    ensures QuotaSmaller(s, DeliverQoS1(s, m, r, detached, reading)) && QuotaSmaller(s, AcceptQoS2(s, m, r, detached, reading))
  {
    DeliverSmaller(s, m, r, detached, true, reading);
    DeliverSmaller(Log(s.(callbacks := s.callbacks + {m}), Manual(m)), m, r, false, false, reading);
    DeliverSmaller(Log(Log(s.(pendingAck := s.pendingAck[m.pid := m]), Accepted(m)), Manual(m)), m, r, false, false, reading);
    hide Deliver;
  }

  // Whole runs.

  function Initial(limit: Option<nat>, sessionPresent: bool): State {
    State(limit, false, {}, map[], map[], {}, if sessionPresent then Idle else NoSession, {}, {}, None, 0, {}, {}, [])
  }

  ghost predicate Runs(s: State, steps: seq<Step>, end: State)
    decreases |steps|
  {
    if steps == [] then s == end else Enabled(s, steps[0]) && Runs(Apply(s, steps[0]), steps[1..], end)
  }

  lemma {:induction false} RunsKeep(s: State, steps: seq<Step>, end: State)
    requires Sound(s) && QuotaKept(s) && Runs(s, steps, end)
    ensures Sound(end) && QuotaKept(end)
    decreases |steps|
  {
    hide Sound, QuotaKept, Enabled, Apply;
    if steps != [] {
      StepKeeps(s, steps[0]);
      StepQuota(s, steps[0]);
      RunsKeep(Apply(s, steps[0]), steps[1..], end);
    }
  }

  lemma InitialSound(limit: Option<nat>, sessionPresent: bool)
    ensures Sound(Initial(limit, sessionPresent)) && QuotaKept(Initial(limit, sessionPresent))
  {
  }

  /**
   * In every run: each event was justified when it happened, QoS 2 identifiers held, awaiting ack() and awaiting
   * PUBREL are disjoint, nothing ever happened for a message held or dropped, and the quota holds while connected.
   */
  lemma EveryRun(limit: Option<nat>, sessionPresent: bool, steps: seq<Step>, end: State)
    requires Runs(Initial(limit, sessionPresent), steps, end)
    ensures Justified(end.trace)
    ensures end.inflight.Keys !! end.pendingAck.Keys
    ensures forall m :: m in end.held && m.qos == 2 ==> m.pid !in end.inflight && m.pid !in end.pendingAck
    ensures forall m :: m in end.held || m in end.dropped ==> Untouched(end.trace, m)
    ensures !end.closed && end.limit.Some? ==> |end.unacked| <= end.limit.value
  {
    InitialSound(limit, sessionPresent);
    RunsKeep(Initial(limit, sessionPresent), steps, end);
    forall m | m in end.held || m in end.dropped
      ensures Untouched(end.trace, m)
    {
      MsgIsOk(end, m);
      PlaceHeld(end, m);
      OutOfReach(end.trace, m, PlaceOf(end, m));
    }
    hide MsgOk, Justified, Untouched, AllOk;
  }

  lemma PlaceHeld(s: State, m: Msg)
    ensures (PlaceOf(s, m).held <==> m in s.held) && (PlaceOf(s, m).dropped <==> m in s.dropped)
  {
  }

  lemma OutOfReach(trace: Trace, m: Msg, p: Place)
    requires MsgOk(trace, m, p) && (p.held || p.dropped)
    ensures Untouched(trace, m)
  {
  }

  /** PUBREL always gets its PUBCOMP, and the exchange is over. */
  lemma PubRelAnswered(s: State, pid: int, detached: bool)
    ensures var z := PubRel(s, pid, detached);
            && pid !in z.inflight
            && (pid in s.inflight ==> pid !in z.unacked && PubCompSent(s.inflight[pid].msg) in z.trace[|s.trace|..])
            && (pid !in s.inflight ==> z.trace == s.trace + [StrayPubComp(pid)])
            && s.trace <= z.trace
  {
    if pid in s.inflight {
      PubRelIs(s, pid, detached);
      var f := s.inflight[pid];
      var events := if f.delivered then [PubCompSent(f.msg)] else AfterComp(f.msg, f.recipient, detached);
      assert events[0] == PubCompSent(f.msg) && (s.trace + events)[|s.trace|..] == events;
      hide PubRel;
    }
  }

  // Nothing is lost on the way.

  /** A message received is turned away as a duplicate or by closing, is on record, or has a history. */
  ghost predicate AccountedFor(s: State, m: Msg) {
    m in s.turnedAway || m in s.held || m in s.dropped || (s.blocked.Some? && s.blocked.value.msg == m) || !Untouched(s.trace, m)
  }

  ghost predicate Accounted(s: State) { forall m :: m in s.seen ==> AccountedFor(s, m) }

  lemma TouchedStays(trace: Trace, more: Trace, m: Msg)
    requires trace <= more && !Untouched(trace, m)
    ensures !Untouched(more, m)
  {
    var e :| e in trace && Concerns(e, m);
    assert more == trace + more[|trace|..];
  }

  /** A change that may lose sight of `m` alone. */
  ghost predicate Follows(s: State, z: State, m: Msg) {
    && s.trace <= z.trace && s.turnedAway <= z.turnedAway && s.dropped <= z.dropped && z.seen == s.seen
    && (forall n :: n in s.held && n != m ==> n in z.held || n in z.dropped)
    && (s.blocked.Some? && s.blocked.value.msg != m ==> z.blocked == s.blocked)
  }

  lemma AccountFrame(s: State, z: State, m: Msg)
    requires Accounted(s) && Follows(s, z, m) && AccountedFor(z, m)
    ensures Accounted(z)
  {
    forall n | n in z.seen
      ensures AccountedFor(z, n)
    {
      if n != m && !Untouched(s.trace, n) {
        TouchedStays(s.trace, z.trace, n);
      }
    }
    hide Untouched;
  }

  lemma FollowsOn(s: State, y: State, z: State, m: Msg)
    requires Follows(s, y, m) && Follows(y, z, m)
    ensures Follows(s, z, m)
  {
  }

  lemma DeliverAccounts(s: State, m: Msg, r: Recipient, detached: bool, ack: bool, reading: bool)
    requires reading ==> s.blocked.None?
    ensures var z := Deliver(s, m, r, detached, ack, reading); Follows(s, z, m) && AccountedFor(z, m)
  {
    var z := Deliver(s, m, r, detached, ack, reading);
    match r
    case Request => assert Concerns(Handed(m), m) && z.trace[|s.trace|] == Handed(m);
    case Nobody => assert Concerns(Unclaimed(m), m) && z.trace[|s.trace|] == Unclaimed(m);
    case Subscription(_) =>
      if detached {
        assert Concerns(Refused(m), m) && z.trace[|s.trace|] == Refused(m);
      } else if !reading {
        assert Concerns(Enqueued(m), m) && z.trace[|s.trace|] == Enqueued(m);
      }
  }

  lemma LogAccounts(s: State, e: Event, m: Msg)
    ensures Follows(s, Log(s, e), m)
    ensures Concerns(e, m) ==> AccountedFor(Log(s, e), m)
  {
    assert Log(s, e).trace[|s.trace|] == e;
  }

  lemma QoS1Accounts(s: State, m: Msg, r: Recipient, detached: bool, reading: bool)
    requires reading ==> s.blocked.None?
    ensures var z := DeliverQoS1(s, m, r, detached, reading); Follows(s, z, m) && AccountedFor(z, m)
  {
    DeliverAccounts(s, m, r, detached, true, reading);
    LogAccounts(s, Refused(m), m);
    var y := Log(s.(callbacks := s.callbacks + {m}), Manual(m));
    DeliverAccounts(y, m, r, false, false, reading);
    assert Follows(s, y, m);
    FollowsOn(s, y, Deliver(y, m, r, false, false, reading), m);
    hide Deliver, Follows, AccountedFor, Log;
  }

  lemma QoS2Accounts(s: State, m: Msg, r: Recipient, detached: bool, reading: bool)
    requires reading ==> s.blocked.None?
    ensures var z := AcceptQoS2(s, m, r, detached, reading); Follows(s, z, m) && AccountedFor(z, m)
  {
    LogAccounts(s, Refused(m), m);
    var auto := s.(inflight := s.inflight[m.pid := Flight(m, r, false)]);
    LogAccounts(Log(auto, Accepted(m)), PubRecSent(m), m);
    var x := s.(pendingAck := s.pendingAck[m.pid := m]);
    var y := Log(Log(x, Accepted(m)), Manual(m));
    LogAccounts(Log(x, Accepted(m)), Manual(m), m);
    DeliverAccounts(y, m, r, false, false, reading);
    assert Follows(s, Log(auto, Accepted(m)), m) && Follows(s, Log(x, Accepted(m)), m);
    FollowsOn(s, Log(auto, Accepted(m)), Log(Log(auto, Accepted(m)), PubRecSent(m)), m);
    FollowsOn(s, Log(x, Accepted(m)), y, m);
    FollowsOn(s, y, Deliver(y, m, r, false, false, reading), m);
    hide Deliver, Follows, AccountedFor, Log;
  }

  lemma RouteAccounts(s: State, m: Msg, sel: Selection)
    requires s.blocked.None?
    ensures Follows(s, Route(s, m, sel), m) && AccountedFor(Route(s, m, sel), m)
  {
    if sel.Take? {
      DeliverAccounts(s, m, sel.recipient, sel.detached, false, true);
      QoS1Accounts(s, m, sel.recipient, sel.detached, true);
      QoS2Accounts(s, m, sel.recipient, sel.detached, true);
      hide Deliver, DeliverQoS1, AcceptQoS2, Follows, AccountedFor;
    }
  }

  lemma PublishAccounts(s: State, m: Msg, sel: Selection)
    requires Accounted(s) && s.blocked.None?
    ensures Accounted(Publish(s, m, sel))
  {
    var t := s.(arrived := s.arrived + 1, seen := s.seen + {m});
    var q := if m.qos == 0 then t else HoldQuota(t, m.pid);
    RouteAccounts(q, m, sel);
    PublishIs(s, m, sel);
    var z := Publish(s, m, sel);
    hide Publish, Route, Untouched, HeldId;
    assert Follows(q, z, m) && AccountedFor(z, m) by {
      if m.qos == 2 && m.pid in q.inflight {
        LogAccounts(q, PubRecSent(q.inflight[m.pid].msg), m);
      }
    }
    forall n | n in s.seen
      ensures AccountedFor(q, n)
    {
    }
    ReceivedAccounts(q, z, m);
  }

  lemma ReceivedAccounts(q: State, z: State, m: Msg)
    requires (forall n :: n in q.seen && n != m ==> AccountedFor(q, n)) && Follows(q, z, m) && AccountedFor(z, m)
    ensures Accounted(z)
  {
    forall n | n in z.seen
      ensures AccountedFor(z, n)
    {
      if n != m && !Untouched(q.trace, n) {
        TouchedStays(q.trace, z.trace, n);
      }
    }
    hide Untouched;
  }

  lemma PubRelAccounts(s: State, pid: int, detached: bool)
    requires Accounted(s) && s.blocked.None?
    ensures Accounted(PubRel(s, pid, detached))
  {
    var z := PubRel(s, pid, detached);
    if pid in s.inflight {
      var m := s.inflight[pid].msg;
      PubRelIs(s, pid, detached);
      PubRelAnswered(s, pid, detached);
      assert PubCompSent(m) in z.trace && Concerns(PubCompSent(m), m);
      hide PubRel, AfterComp;
      AccountFrame(s, z, m);
    } else {
      forall n | n in z.seen
        ensures AccountedFor(z, n)
      {
        if !Untouched(s.trace, n) {
          TouchedStays(s.trace, z.trace, n);
        }
      }
      hide Untouched;
    }
  }

  lemma StepAccounts(s: State, e: Step)
    requires Accounted(s) && Enabled(s, e)
    ensures Accounted(Apply(s, e))
  {
    match e
    case PublishStep(m, sel) => PublishAccounts(s, m, sel);
    case PubRelStep(pid, detached) => PubRelAccounts(s, pid, detached);
    case FinishPutStep(detached) =>
      var m := s.blocked.value.msg;
      FinishIs(s, detached);
      var z := FinishPut(s, detached);
      assert z.trace[|s.trace|] == Enqueued(m) && Concerns(Enqueued(m), m);
      AccountFrame(s, z, m);
    case AppAckStep(m) =>
      AppAckIs(s, m);
      var z := AppAck(s, m);
      assert z.trace[|s.trace|] == AppAcked(m) && Concerns(AppAcked(m), m);
      hide AppAck;
      AccountFrame(s, z, m);
    case DrainStep(m, r, detached) => DrainAccounts(s, m, r, detached);
    case DrainEndStep =>
    case ExpireStep =>
    case ClearStep(_) =>
  }

  lemma DrainAccounts(s: State, m: Msg, r: Recipient, detached: bool)
    requires Accounted(s)
    ensures Accounted(Drain(s, m, r, detached))
  {
    var t := s.(held := s.held - {m});
    DeliverAccounts(t, m, r, detached, false, false);
    QoS1Accounts(t, m, r, detached, false);
    QoS2Accounts(t, m, r, detached, false);
    assert Follows(s, t, m);
    var z := Drain(s, m, r, detached);
    hide Deliver, DeliverQoS1, AcceptQoS2, Follows, AccountedFor;
    FollowsOn(s, t, z, m);
    AccountFrame(s, z, m);
  }

  lemma {:induction false} RunsAccount(s: State, steps: seq<Step>, end: State)
    requires Accounted(s) && Runs(s, steps, end)
    ensures Accounted(end)
    decreases |steps|
  {
    hide Accounted, Enabled, Apply;
    if steps != [] {
      StepAccounts(s, steps[0]);
      RunsAccount(Apply(s, steps[0]), steps[1..], end);
    }
  }

  // Who is turned away.

  predicate OnRecord(s: State, n: Msg) {
    || n in s.held
    || (n.pid in s.inflight && s.inflight[n.pid].msg == n)
    || (n.pid in s.pendingAck && s.pendingAck[n.pid] == n)
  }

  /** `n` came before `m` under the same identifier, and was taken in. */
  predicate Original(s: State, n: Msg, m: Msg) {
    n in s.seen && n !in s.turnedAway && n.serial < m.serial && n.qos > 0 && n.pid == m.pid
  }

  ghost predicate Repeats(s: State, m: Msg) { m.qos > 0 && exists n :: Original(s, n, m) }

  ghost predicate TurnedAwayKnown(s: State) {
    && (forall n :: n in s.seen ==> n.serial < s.arrived)
    && s.turnedAway <= s.seen
    && (forall n: Msg :: OnRecord(s, n) ==> n in s.seen && n !in s.turnedAway)
    && (!s.closed ==> forall m :: m in s.turnedAway ==> Repeats(s, m))
  }

  /** Handing one message on puts at most that message on record. */
  ghost predicate RecordsOnly(s: State, z: State, m: Msg) {
    && z.seen == s.seen && z.arrived == s.arrived && (s.closed ==> z.closed)
    && (!z.closed ==> z.turnedAway == s.turnedAway) && s.turnedAway <= z.turnedAway <= s.turnedAway + {m}
    && (z.turnedAway != s.turnedAway ==> !OnRecord(z, m))
    && (forall n: Msg :: OnRecord(z, n) ==> OnRecord(s, n) || n == m)
  }

  lemma DeliverRecords(s: State, m: Msg, r: Recipient, detached: bool, ack: bool, reading: bool)
    ensures var z := Deliver(s, m, r, detached, ack, reading);
            && z.inflight == s.inflight && z.pendingAck == s.pendingAck && z.held == s.held && z.seen == s.seen
            && z.arrived == s.arrived && z.turnedAway == s.turnedAway && z.closed == s.closed
  {
  }

  lemma QoS1Records(s: State, m: Msg, r: Recipient, detached: bool, reading: bool)
    ensures var z := DeliverQoS1(s, m, r, detached, reading);
            RecordsOnly(s, z, m) && z.turnedAway == s.turnedAway && z.closed == s.closed
  {
    DeliverRecords(s, m, r, detached, true, reading);
    DeliverRecords(Log(s.(callbacks := s.callbacks + {m}), Manual(m)), m, r, false, false, reading);
    hide Deliver;
  }

  lemma QoS2Records(s: State, m: Msg, r: Recipient, detached: bool, reading: bool)
    ensures var z := AcceptQoS2(s, m, r, detached, reading);
            RecordsOnly(s, z, m) && z.turnedAway == s.turnedAway && z.closed == s.closed
  {
    DeliverRecords(Log(Log(s.(pendingAck := s.pendingAck[m.pid := m]), Accepted(m)), Manual(m)), m, r, false, false, reading);
    hide Deliver;
  }

  lemma RouteRecords(s: State, m: Msg, sel: Selection)
    requires !OnRecord(s, m)
    ensures RecordsOnly(s, Route(s, m, sel), m)
  {
    if sel.Take? {
      DeliverRecords(s, m, sel.recipient, sel.detached, false, true);
      QoS1Records(s, m, sel.recipient, sel.detached, true);
      QoS2Records(s, m, sel.recipient, sel.detached, true);
      hide Deliver, DeliverQoS1, AcceptQoS2;
    }
  }

  /** Records that shrink, and those of one message already received, keep what is known. */
  lemma RecordsKeep(s: State, z: State, m: Msg)
    requires TurnedAwayKnown(s) && RecordsOnly(s, z, m) && z.turnedAway == s.turnedAway && z.closed == s.closed
    requires OnRecord(s, m)
    ensures TurnedAwayKnown(z)
  {
    assert forall n: Msg, k: Msg :: Original(z, n, k) <==> Original(s, n, k);
    hide OnRecord, Original;
  }

  lemma ReceivedKnown(s: State, q: State, z: State, m: Msg)
    requires TurnedAwayKnown(s) && m.serial == s.arrived && !OnRecord(s, m) && !s.closed
    requires q.seen == s.seen + {m} && q.arrived == s.arrived + 1 && q.turnedAway == s.turnedAway
    requires q.inflight == s.inflight && q.pendingAck == s.pendingAck && q.held == s.held
    requires RecordsOnly(q, z, m) || (z.turnedAway == q.turnedAway + {m} && z.seen == q.seen && z.arrived == q.arrived &&
                                      (forall n: Msg :: OnRecord(z, n) ==> OnRecord(q, n)) && (!z.closed ==> Repeats(s, m)))
    ensures TurnedAwayKnown(z)
  {
    assert m !in s.seen;
    forall k | k in z.turnedAway && !z.closed
      ensures Repeats(z, k)
    {
      assert Repeats(s, k);
      var n :| Original(s, n, k);
      assert Original(z, n, k);
    }
    forall n: Msg | OnRecord(z, n)
      ensures n in z.seen && n !in z.turnedAway
    {
      assert OnRecord(q, n) ==> OnRecord(s, n);
    }
  }

  /** What the handler recognises as a duplicate repeats a message on record. */
  lemma DuplicateRepeats(s: State, m: Msg)
    requires Sound(s) && TurnedAwayKnown(s) && m.serial == s.arrived && m.qos > 0
    requires HeldId(s.held, m.pid) || m.pid in s.inflight || m.pid in s.pendingAck
    ensures Repeats(s, m)
  {
    SoundParts(s);
    var n :| OnRecord(s, n) && n.qos > 0 && n.pid == m.pid by {
      if m.pid in s.inflight {
        assert OnRecord(s, s.inflight[m.pid].msg);
      } else if m.pid in s.pendingAck {
        assert OnRecord(s, s.pendingAck[m.pid]);
      } else {
        var h :| h in s.held && h.qos > 0 && h.pid == m.pid;
        assert OnRecord(s, h);
      }
    }
    assert Original(s, n, m);
    hide Sound, IdsDisjoint, Justified;
  }

  lemma PublishKnown(s: State, m: Msg, sel: Selection)
    requires Sound(s) && TurnedAwayKnown(s) && Enabled(s, PublishStep(m, sel))
    ensures TurnedAwayKnown(Publish(s, m, sel))
  {
    var t := s.(arrived := s.arrived + 1, seen := s.seen + {m});
    var q := if m.qos == 0 then t else HoldQuota(t, m.pid);
    var z := Publish(s, m, sel);
    PublishIs(s, m, sel);
    assert !OnRecord(q, m) && !OnRecord(s, m);
    RouteRecords(q, m, sel);
    if m.qos > 0 && (HeldId(s.held, m.pid) || m.pid in s.inflight || m.pid in s.pendingAck) {
      DuplicateRepeats(s, m);
    }
    PublishRecords(s, m, sel);
    hide Sound, Route, HeldId, Publish, Repeats, TurnedAwayKnown, RecordsOnly, OnRecord;
    ReceivedKnown(s, q, z, m);
  }

  /** Either the message is routed, or it is turned away, for good reason or with the connection. */
  lemma PublishRecords(s: State, m: Msg, sel: Selection)
    requires 0 <= m.qos <= 2
    ensures var t := s.(arrived := s.arrived + 1, seen := s.seen + {m});
            var q := if m.qos == 0 then t else HoldQuota(t, m.pid);
            var z := Publish(s, m, sel);
            || z == Route(q, m, sel)
            || (z.turnedAway == q.turnedAway + {m} && z.seen == q.seen && z.arrived == q.arrived &&
                (forall n: Msg :: OnRecord(z, n) ==> OnRecord(q, n)) &&
                (!z.closed ==> m.qos > 0 && (HeldId(s.held, m.pid) || m.pid in s.inflight || m.pid in s.pendingAck)))
  {
    hide Route, HeldId;
  }

  lemma FrameKnown(s: State, z: State)
    requires TurnedAwayKnown(s) && z.seen == s.seen && z.arrived == s.arrived && z.turnedAway == s.turnedAway && (s.closed ==> z.closed)
    requires forall n: Msg :: OnRecord(z, n) ==> OnRecord(s, n)
    ensures TurnedAwayKnown(z)
  {
    assert forall n: Msg, k: Msg :: Original(z, n, k) <==> Original(s, n, k);
    hide OnRecord, Original;
  }

  lemma DrainKnown(s: State, m: Msg, r: Recipient, detached: bool)
    requires Sound(s) && TurnedAwayKnown(s) && Enabled(s, DrainStep(m, r, detached))
    ensures TurnedAwayKnown(Drain(s, m, r, detached))
  {
    var t := s.(held := s.held - {m});
    hide Sound;
    DeliverRecords(t, m, r, detached, false, false);
    QoS1Records(t, m, r, detached, false);
    QoS2Records(t, m, r, detached, false);
    hide Deliver, DeliverQoS1, AcceptQoS2;
    RecordsKeep(s, Drain(s, m, r, detached), m);
  }

  lemma StepKnown(s: State, e: Step)
    requires Sound(s) && TurnedAwayKnown(s) && Enabled(s, e)
    ensures TurnedAwayKnown(Apply(s, e))
  {
    var z := Apply(s, e);
    hide Sound;
    match e
    case PublishStep(m, sel) => PublishKnown(s, m, sel);
    case PubRelStep(pid, gone) =>
      if pid in s.inflight {
        PubRelIs(s, pid, gone);
      }
      FrameKnown(s, z);
    case FinishPutStep(detached) =>
      FinishIs(s, detached);
      FrameKnown(s, z);
    case AppAckStep(m) =>
      AppAckIs(s, m);
      hide AppAck;
      FrameKnown(s, z);
    case DrainStep(m, r, detached) => DrainKnown(s, m, r, detached);
    case _ => FrameKnown(s, z);
  }

  lemma {:induction false} RunsKnown(s: State, steps: seq<Step>, end: State)
    requires Sound(s) && TurnedAwayKnown(s) && Runs(s, steps, end)
    ensures TurnedAwayKnown(end)
    decreases |steps|
  {
    hide Sound, TurnedAwayKnown, Enabled, Apply;
    if steps != [] {
      StepKeeps(s, steps[0]);
      StepKnown(s, steps[0]);
      RunsKnown(Apply(s, steps[0]), steps[1..], end);
    }
  }

  /**
   * In every run, each message received is on record, has a history, or was turned away; and while the connection
   * lives, one turned away repeats the identifier of an earlier message that was taken in.
   */
  lemma NoMessageLost(limit: Option<nat>, sessionPresent: bool, steps: seq<Step>, end: State)
    requires Runs(Initial(limit, sessionPresent), steps, end)
    ensures Accounted(end)
    ensures !end.closed ==> forall m :: m in end.turnedAway ==> Repeats(end, m)
  {
    RunsAccount(Initial(limit, sessionPresent), steps, end);
    InitialSound(limit, sessionPresent);
    RunsKnown(Initial(limit, sessionPresent), steps, end);
  }

  // Every PUBREL is answered.

  predicate IsPubComp(e: Event) { e.PubCompSent? || e.StrayPubComp? }

  function PubComps(trace: Trace): nat {
    if trace == [] then 0
    else PubComps(trace[..|trace| - 1]) + if IsPubComp(trace[|trace| - 1]) then 1 else 0
  }

  function PubRels(steps: seq<Step>): nat {
    if steps == [] then 0 else (if steps[0].PubRelStep? then 1 else 0) + PubRels(steps[1..])
  }

  lemma LogComps(s: State, e: Event)
    ensures PubComps(Log(s, e).trace) == PubComps(s.trace) + if IsPubComp(e) then 1 else 0
  {
    assert Log(s, e).trace[..|s.trace|] == s.trace;
  }

  lemma TwoComps(trace: Trace, a: Event, b: Event)
    ensures PubComps(trace + [a]) == PubComps(trace) + if IsPubComp(a) then 1 else 0
    ensures PubComps(trace + [a, b]) ==
            PubComps(trace) + (if IsPubComp(a) then 1 else 0) + if IsPubComp(b) then 1 else 0
  {
    assert (trace + [a])[..|trace|] == trace;
    assert (trace + [a, b])[..|trace| + 1] == trace + [a];
  }

  lemma DeliverComps(s: State, m: Msg, r: Recipient, detached: bool, ack: bool, reading: bool)
    ensures PubComps(Deliver(s, m, r, detached, ack, reading).trace) == PubComps(s.trace)
  {
    LogComps(s, Handed(m));
    LogComps(s, Unclaimed(m));
    LogComps(s, Refused(m));
    LogComps(s, Enqueued(m));
    var acked := s.(unacked := s.unacked - {m.pid});
    LogComps(Log(acked, Handed(m)), PubAckSent(m));
    LogComps(Log(acked, Unclaimed(m)), PubAckSent(m));
    LogComps(Log(acked, Enqueued(m)), PubAckSent(m));
    hide PubComps;
  }

  lemma QoSComps(s: State, m: Msg, r: Recipient, detached: bool, reading: bool)
    ensures PubComps(DeliverQoS1(s, m, r, detached, reading).trace) == PubComps(s.trace)
    ensures PubComps(AcceptQoS2(s, m, r, detached, reading).trace) == PubComps(s.trace)
  {
    DeliverComps(s, m, r, detached, true, reading);
    LogComps(s, Refused(m));
    var called := s.(callbacks := s.callbacks + {m});
    LogComps(called, Manual(m));
    DeliverComps(Log(called, Manual(m)), m, r, false, false, reading);
    var flown := s.(inflight := s.inflight[m.pid := Flight(m, r, false)]);
    LogComps(flown, Accepted(m));
    LogComps(Log(flown, Accepted(m)), PubRecSent(m));
    var pending := s.(pendingAck := s.pendingAck[m.pid := m]);
    LogComps(pending, Accepted(m));
    LogComps(Log(pending, Accepted(m)), Manual(m));
    DeliverComps(Log(Log(pending, Accepted(m)), Manual(m)), m, r, false, false, reading);
    hide PubComps, Deliver, Log;
  }

  lemma RouteComps(s: State, m: Msg, sel: Selection)
    ensures PubComps(Route(s, m, sel).trace) == PubComps(s.trace)
  {
    RouteIs(s, m, sel);
    hide *;
    match sel
    case Hold =>
    case Overflow =>
    case Take(r, detached) =>
      DeliverComps(s, m, r, detached, false, true);
      QoSComps(s, m, r, detached, true);
  }

  lemma RouteIs(s: State, m: Msg, sel: Selection)
    ensures !sel.Take? ==> Route(s, m, sel).trace == s.trace
    ensures sel.Take? ==>
              Route(s, m, sel) ==
              if m.qos == 0 then Deliver(s, m, sel.recipient, sel.detached, false, true)
              else if m.qos == 1 then DeliverQoS1(s, m, sel.recipient, sel.detached, true)
              else AcceptQoS2(s, m, sel.recipient, sel.detached, true)
  {
    hide Deliver, DeliverQoS1, AcceptQoS2;
  }

  lemma AwayComps(s: State, m: Msg, pid: int)
    ensures PubComps(TurnAway(s, m).trace) == PubComps(s.trace) && PubComps(HoldQuota(s, pid).trace) == PubComps(s.trace)
  {
    hide PubComps;
  }

  lemma PublishComps(s: State, m: Msg, sel: Selection)
    ensures PubComps(Publish(s, m, sel).trace) == PubComps(s.trace)
  {
    hide *;
    var t := s.(arrived := s.arrived + 1, seen := s.seen + {m});
    var q := HoldQuota(t, m.pid);
    PublishIs(s, m, sel);
    AwayComps(t, m, m.pid);
    AwayComps(q, m, m.pid);
    RouteComps(t, m, sel);
    RouteComps(q, m, sel);
    if m.pid in q.inflight {
      PubRecComps(q, q.inflight[m.pid].msg);
      AwayComps(Log(q, PubRecSent(q.inflight[m.pid].msg)), m, m.pid);
    }
  }

  lemma PubRecComps(s: State, m: Msg)
    ensures PubComps(Log(s, PubRecSent(m)).trace) == PubComps(s.trace)
  {
    LogComps(s, PubRecSent(m));
    hide PubComps, Log;
  }

  lemma PubRelComps(s: State, pid: int, gone: bool)
    ensures PubComps(PubRel(s, pid, gone).trace) == PubComps(s.trace) + 1
  {
    if pid in s.inflight {
      var f := s.inflight[pid];
      var m := f.msg;
      PubRelIs(s, pid, gone);
      AfterCompIs(m, f.recipient, gone);
      TwoComps(s.trace, PubCompSent(m), Handed(m));
      TwoComps(s.trace, PubCompSent(m), Stale(m));
      TwoComps(s.trace, PubCompSent(m), Unclaimed(m));
      TwoComps(s.trace, PubCompSent(m), Lost(m));
      hide PubRel, PubComps, AfterComp;
    } else {
      LogComps(s, StrayPubComp(pid));
      hide PubComps;
    }
  }

  lemma FinishComps(s: State, detached: bool)
    requires s.blocked.Some?
    ensures PubComps(FinishPut(s, detached).trace) == PubComps(s.trace)
  {
    var m := s.blocked.value.msg;
    FinishIs(s, detached);
    TwoComps(s.trace, Enqueued(m), Withdrawn(m));
    TwoComps(s.trace, Enqueued(m), PubAckSent(m));
    hide FinishPut, PubComps;
  }

  lemma AppAckComps(s: State, m: Msg)
    ensures PubComps(AppAck(s, m).trace) == PubComps(s.trace)
  {
    AppAckIs(s, m);
    TwoComps(s.trace, AppAcked(m), PubAckSent(m));
    TwoComps(s.trace, AppAcked(m), PubRecSent(m));
    hide AppAck, PubComps;
  }

  lemma DrainComps(s: State, m: Msg, r: Recipient, detached: bool)
    ensures PubComps(Drain(s, m, r, detached).trace) == PubComps(s.trace)
  {
    var t := s.(held := s.held - {m});
    DeliverComps(t, m, r, detached, false, false);
    QoSComps(t, m, r, detached, false);
    hide PubComps, Deliver, DeliverQoS1, AcceptQoS2;
  }

  lemma StepAnswers(s: State, e: Step)
    requires Enabled(s, e)
    ensures PubComps(Apply(s, e).trace) == PubComps(s.trace) + if e.PubRelStep? then 1 else 0
  {
    hide PubComps, Publish, PubRel, FinishPut, AppAck, Drain, Enabled;
    match e
    case PublishStep(m, sel) => PublishComps(s, m, sel);
    case PubRelStep(pid, gone) => PubRelComps(s, pid, gone);
    case FinishPutStep(detached) =>
      CanFinish(s, detached);
      FinishComps(s, detached);
    case AppAckStep(m) => AppAckComps(s, m);
    case DrainStep(m, r, detached) => DrainComps(s, m, r, detached);
    case DrainEndStep =>
    case ExpireStep =>
    case ClearStep(_) =>
  }

  lemma CanFinish(s: State, detached: bool)
    requires Enabled(s, FinishPutStep(detached))
    ensures s.blocked.Some?
  {
  }

  lemma {:induction false} RunsAnswer(s: State, steps: seq<Step>, end: State)
    requires Runs(s, steps, end)
    ensures PubComps(end.trace) == PubComps(s.trace) + PubRels(steps)
    decreases |steps|
  {
    hide Enabled, Apply, PubComps;
    if steps != [] {
      StepAnswers(s, steps[0]);
      RunsAnswer(Apply(s, steps[0]), steps[1..], end);
    }
  }

  /**
   * In every run, as many PUBCOMPs were sent as PUBRELs came, whether or not they had an exchange; an identifier not
   * awaiting PUBREL or ack() has no unfinished exchange left.
   */
  lemma EveryPubRelAnswered(limit: Option<nat>, sessionPresent: bool, steps: seq<Step>, end: State)
    requires Runs(Initial(limit, sessionPresent), steps, end)
    ensures PubComps(end.trace) == PubRels(steps)
    ensures forall m :: Accepted(m) in end.trace && m.pid !in end.inflight && m.pid !in end.pendingAck ==>
              PubCompSent(m) in end.trace
  {
    RunsAnswer(Initial(limit, sessionPresent), steps, end);
    InitialSound(limit, sessionPresent);
    RunsKeep(Initial(limit, sessionPresent), steps, end);
    forall m | Accepted(m) in end.trace && m.pid !in end.inflight && m.pid !in end.pendingAck
      ensures PubCompSent(m) in end.trace
    {
      MsgIsOk(end, m);
    }
    hide Sound, Runs;
  }

  // What a justified history says from end to end.

  lemma {:induction false} JustifiedAt(trace: Trace, k: nat)
    requires Justified(trace) && k < |trace|
    ensures Justified(trace[..k]) && Justifies(trace[..k], trace[k])
    decreases |trace|
  {
    var front := trace[..|trace| - 1];
    if k < |front| {
      JustifiedAt(front, k);
      assert front[..k] == trace[..k];
    }
  }

  predicate Delivers(e: Event, m: Msg) { e == Enqueued(m) || e == Handed(m) }

  lemma DeliveredOnceIn(trace: Trace, m: Msg)
    requires Justified(trace)
    ensures forall i, j :: 0 <= i < j < |trace| && Delivers(trace[i], m) ==> !Delivers(trace[j], m)
    ensures m.qos == 2 ==> forall j :: 0 <= j < |trace| && Delivers(trace[j], m) ==> Accepted(m) in trace[..j]
  {
    forall i, j | 0 <= i < j < |trace| && Delivers(trace[i], m)
      ensures !Delivers(trace[j], m)
    {
      JustifiedAt(trace, j);
      assert trace[..j][i] == trace[i];
    }
    forall j | 0 <= j < |trace| && Delivers(trace[j], m)
      ensures m.qos == 2 ==> Accepted(m) in trace[..j]
    {
      JustifiedAt(trace, j);
    }
    hide Justified;
  }

  lemma ExchangesApart(trace: Trace, m: Msg)
    requires Justified(trace)
    ensures forall i, j, n :: 0 <= i < j < |trace| && trace[i] == Accepted(m) && trace[j] == Accepted(n) && n.pid == m.pid ==>
              PubCompSent(m) in trace[..j]
  {
    forall i, j, n | 0 <= i < j < |trace| && trace[i] == Accepted(m) && trace[j] == Accepted(n) && n.pid == m.pid
      ensures PubCompSent(m) in trace[..j]
    {
      JustifiedAt(trace, j);
      assert trace[..j][i] == Accepted(m);
    }
    hide Justified;
  }

  /**
   * Exactly once, in every run: a message reaches the application at most once, a QoS 2 message only within its
   * exchange; the next exchange on its identifier begins after its PUBCOMP; and by its PUBCOMP it has been delivered,
   * unless there was nobody to take it, its recipient was gone, or it waits for room in the queue.
   */
  lemma ExactlyOnce(limit: Option<nat>, sessionPresent: bool, steps: seq<Step>, end: State, m: Msg)
    requires Runs(Initial(limit, sessionPresent), steps, end)
    ensures forall i, j :: 0 <= i < j < |end.trace| && Delivers(end.trace[i], m) ==> !Delivers(end.trace[j], m)
    ensures m.qos == 2 ==> forall j :: 0 <= j < |end.trace| && Delivers(end.trace[j], m) ==> Accepted(m) in end.trace[..j]
    ensures forall i, j, n ::
              0 <= i < j < |end.trace| && end.trace[i] == Accepted(m) && end.trace[j] == Accepted(n) && n.pid == m.pid ==>
                PubCompSent(m) in end.trace[..j]
    ensures PubCompSent(m) in end.trace ==>
              Delivered(end.trace, m) || Unclaimed(m) in end.trace || Lost(m) in end.trace || Stale(m) in end.trace ||
              (end.blocked.Some? && end.blocked.value.msg == m)
  {
    EveryRun(limit, sessionPresent, steps, end);
    InitialSound(limit, sessionPresent);
    RunsKeep(Initial(limit, sessionPresent), steps, end);
    DeliveredOnceIn(end.trace, m);
    ExchangesApart(end.trace, m);
    MsgIsOk(end, m);
    hide Sound, Justified, Runs;
  }

  lemma AcksInOrder(trace: Trace, m: Msg)
    requires Justified(trace)
    ensures forall j :: 0 <= j < |trace| && trace[j] == PubAckSent(m) ==>
              PubAckDue(trace[..j], m) && PubAckSent(m) !in trace[..j]
    ensures forall j :: 0 <= j < |trace| && trace[j] == PubRecSent(m) ==>
              Accepted(m) in trace[..j] && PubCompSent(m) !in trace[..j] && (Manual(m) in trace[..j] ==> AppAcked(m) in trace[..j])
  {
    forall j | 0 <= j < |trace|
      ensures Justifies(trace[..j], trace[j])
    {
      JustifiedAt(trace, j);
    }
    hide Justified;
  }

  /** A message whose recipient was detached when selected is never acknowledged, before or after. */
  lemma {:induction false} RefusedNeverAcked(trace: Trace, m: Msg)
    requires Justified(trace) && Refused(m) in trace
    ensures PubAckSent(m) !in trace && PubRecSent(m) !in trace
    decreases |trace|
  {
    var front, last := trace[..|trace| - 1], trace[|trace| - 1];
    assert trace == front + [last];
    if Refused(m) in front {
      RefusedNeverAcked(front, m);
    }
  }

  lemma {:induction false} PubAckIsQoS1(trace: Trace, m: Msg)
    requires Justified(trace) && PubAckSent(m) in trace
    ensures m.qos == 1
    decreases |trace|
  {
    var front, last := trace[..|trace| - 1], trace[|trace| - 1];
    assert trace == front + [last];
    if PubAckSent(m) in front {
      PubAckIsQoS1(front, m);
    }
  }

  /**
   * The acknowledgement discipline, in every run. PUBACK has been sent exactly for the QoS 1 messages whose PUBACK is
   * due, PUBREC exactly for accepted exchanges the application need not acknowledge any more; each was due when it
   * was sent, PUBACK only once; a message held, dropped or refused has neither.
   */
  lemma AcknowledgedExactly(limit: Option<nat>, sessionPresent: bool, steps: seq<Step>, end: State, m: Msg)
    requires Runs(Initial(limit, sessionPresent), steps, end)
    ensures PubAckSent(m) in end.trace <==> m.qos == 1 && PubAckDue(end.trace, m)
    ensures PubRecSent(m) in end.trace <==>
              Accepted(m) in end.trace && (Manual(m) in end.trace ==> AppAcked(m) in end.trace)
    ensures m in end.held || m in end.dropped || Refused(m) in end.trace ==>
              PubAckSent(m) !in end.trace && PubRecSent(m) !in end.trace
    ensures forall j :: 0 <= j < |end.trace| && end.trace[j] == PubAckSent(m) ==>
              PubAckDue(end.trace[..j], m) && PubAckSent(m) !in end.trace[..j]
    ensures forall j :: 0 <= j < |end.trace| && end.trace[j] == PubRecSent(m) ==>
              && Accepted(m) in end.trace[..j] && PubCompSent(m) !in end.trace[..j]
              && (Manual(m) in end.trace[..j] ==> AppAcked(m) in end.trace[..j])
  {
    EveryRun(limit, sessionPresent, steps, end);
    InitialSound(limit, sessionPresent);
    RunsKeep(Initial(limit, sessionPresent), steps, end);
    AcksInOrder(end.trace, m);
    MsgIsOk(end, m);
    if PubAckSent(m) in end.trace {
      PubAckIsQoS1(end.trace, m);
    }
    if Refused(m) in end.trace {
      RefusedNeverAcked(end.trace, m);
    }
    AcksFromPlace(end.trace, m, PlaceOf(end, m));
    hide Sound, Justified, Runs, MsgOk, PlaceOf, PubAckDue;
  }

  lemma AcksFromPlace(trace: Trace, m: Msg, p: Place)
    requires MsgOk(trace, m, p)
    ensures m.qos == 1 ==> (PubAckSent(m) in trace <==> PubAckDue(trace, m))
    ensures PubRecSent(m) in trace <==> Accepted(m) in trace && (Manual(m) in trace ==> AppAcked(m) in trace)
  {
  }

  // Coverage of unfinished identifiers.

  /** The message keeps its identifier unfinished: PUBACK or PUBCOMP is still to come. */
  predicate Unfinished(m: Msg, p: Place) {
    (p.held && m.qos > 0) || p.flight.Some? || p.pending || p.callback || p.wait == Some(true)
  }

  ghost predicate Covered(s: State) { forall m: Msg :: Unfinished(m, PlaceOf(s, m)) ==> m.pid in s.unacked }

  ghost predicate OneHolder(s: State) {
    forall m: Msg, n: Msg :: Unfinished(m, PlaceOf(s, m)) && Unfinished(n, PlaceOf(s, n)) && m != n ==> m.pid != n.pid
  }

  ghost predicate IdFinished(s: State, pid: int) { forall n: Msg :: Unfinished(n, PlaceOf(s, n)) ==> n.pid != pid }

  /** The broker reuses an unfinished identifier only for what the flow recognises as a duplicate. */
  ghost predicate Polite(s: State, e: Step) {
    e.PublishStep? && e.msg.qos > 0 ==>
      || IdFinished(s, e.msg.pid)
      || (e.msg.qos == 2 && (e.msg.pid in s.inflight || e.msg.pid in s.pendingAck))
      || HeldId(s.held, e.msg.pid)
  }

  /** A step that touches one message, whose identifier nobody else needs. */
  lemma CoverStep(s: State, z: State, m: Msg)
    requires Covered(s) && OneHolder(s)
    requires forall n: Msg :: n != m && Unfinished(n, PlaceOf(z, n)) ==> Unfinished(n, PlaceOf(s, n))
    requires forall n: Msg :: n != m && Unfinished(n, PlaceOf(s, n)) ==> n.pid != m.pid
    requires z.unacked >= s.unacked - {m.pid}
    requires Unfinished(m, PlaceOf(z, m)) ==> m.pid in z.unacked
    ensures Covered(z) && OneHolder(z)
  {
    hide PlaceOf, Unfinished;
  }

  lemma HolderAlone(s: State, m: Msg)
    requires OneHolder(s) && Unfinished(m, PlaceOf(s, m))
    ensures forall n: Msg :: n != m && Unfinished(n, PlaceOf(s, n)) ==> n.pid != m.pid
  {
    hide PlaceOf, Unfinished;
  }

  /** Nobody new becomes unfinished. */
  lemma CoverFrame(s: State, z: State)
    requires Covered(s) && OneHolder(s) && z.unacked >= s.unacked
    requires forall n: Msg :: Unfinished(n, PlaceOf(z, n)) ==> Unfinished(n, PlaceOf(s, n))
    ensures Covered(z) && OneHolder(z)
  {
    hide PlaceOf, Unfinished;
  }

  /** The only messages a change makes unfinished are `m` and those that were. */
  ghost predicate Spares(s: State, z: State, m: Msg) {
    && z.unacked >= s.unacked - {m.pid}
    && (Unfinished(m, PlaceOf(z, m)) ==> m.pid in z.unacked)
    && forall n: Msg :: n != m && Unfinished(n, PlaceOf(z, n)) ==> Unfinished(n, PlaceOf(s, n))
  }

  lemma DeliverCovers(s: State, m: Msg, r: Recipient, detached: bool, reading: bool)
    requires m.pid in s.unacked && PlaceOf(s, m) == NOWHERE && (reading ==> s.blocked.None?) && (m.qos == 1 || m.qos == 0)
    ensures Spares(s, Deliver(s, m, r, detached, m.qos == 1, reading), m)
  {
  }

  lemma ManualCovers(s: State, m: Msg, reading: bool)
    requires m.pid in s.unacked && PlaceOf(s, m) == NOWHERE && (reading ==> s.blocked.None?)
    ensures var t := Log(s.(callbacks := s.callbacks + {m}), Manual(m));
            Spares(s, Deliver(t, m, Subscription(false), false, false, reading), m)
  {
  }

  lemma AutoCovers(s: State, m: Msg, r: Recipient)
    requires m.pid in s.unacked && PlaceOf(s, m) == NOWHERE
    ensures Spares(s, Log(Log(s.(inflight := s.inflight[m.pid := Flight(m, r, false)]), Accepted(m)), PubRecSent(m)), m)
  {
  }

  lemma PendingCovers(s: State, m: Msg, reading: bool)
    requires m.pid in s.unacked && PlaceOf(s, m) == NOWHERE && (reading ==> s.blocked.None?)
    ensures var t := Log(Log(s.(pendingAck := s.pendingAck[m.pid := m]), Accepted(m)), Manual(m));
            Spares(s, Deliver(t, m, Subscription(false), false, false, reading), m)
  {
  }

  lemma AcceptCovers(s: State, m: Msg, r: Recipient, detached: bool, reading: bool)
    requires m.pid in s.unacked && PlaceOf(s, m) == NOWHERE && (reading ==> s.blocked.None?)
    ensures Spares(s, AcceptQoS2(s, m, r, detached, reading), m)
  {
    AutoCovers(s, m, r);
    PendingCovers(s, m, reading);
    RefusedSpares(s, m);
    hide Deliver, Log, Spares, PlaceOf;
    assert !Auto(r) ==> r == Subscription(false);
  }

  lemma QoS1Covers(s: State, m: Msg, r: Recipient, detached: bool, reading: bool)
    requires m.pid in s.unacked && PlaceOf(s, m) == NOWHERE && (reading ==> s.blocked.None?) && m.qos == 1
    ensures Spares(s, DeliverQoS1(s, m, r, detached, reading), m)
  {
    DeliverCovers(s, m, r, detached, reading);
    ManualCovers(s, m, reading);
    hide Deliver, Log;
    if !Auto(r) {
      assert r == Subscription(false);
      RefusedSpares(s, m);
    }
    hide Spares, PlaceOf;
  }

  lemma RefusedSpares(s: State, m: Msg)
    requires PlaceOf(s, m) == NOWHERE
    ensures Spares(s, Log(s, Refused(m)), m)
  {
  }

  /** Routing a new message; QoS 0 messages hold no identifier. */
  lemma RouteCovers(s: State, m: Msg, sel: Selection)
    requires PlaceOf(s, m) == NOWHERE && s.blocked.None? && 0 < m.qos <= 2 && m.pid in s.unacked
    ensures Spares(s, Route(s, m, sel), m)
  {
    match sel
    case Hold =>
    case Overflow =>
    case Take(r, detached) =>
      if m.qos == 1 {
        QoS1Covers(s, m, r, detached, true);
      } else {
        AcceptCovers(s, m, r, detached, true);
      }
      hide DeliverQoS1, AcceptQoS2, Spares, PlaceOf;
  }

  /** QoS 0 messages touch no identifier. */
  lemma QoS0Covers(s: State, m: Msg, r: Recipient, detached: bool, reading: bool)
    requires reading ==> s.blocked.None?
    ensures var z := Deliver(s, m, r, detached, false, reading);
            && z.unacked == s.unacked
            && forall n: Msg :: Unfinished(n, PlaceOf(z, n)) ==> Unfinished(n, PlaceOf(s, n))
  {
  }

  /** Arrival and the quota make nothing unfinished. */
  lemma ArrivedCovers(s: State, m: Msg, pid: int)
    requires Covered(s) && OneHolder(s)
    ensures var t := s.(arrived := s.arrived + 1, seen := s.seen + {m});
            && Covered(t) && OneHolder(t) && Covered(HoldQuota(t, pid)) && OneHolder(HoldQuota(t, pid))
            && (IdFinished(s, pid) ==> IdFinished(t, pid) && IdFinished(HoldQuota(t, pid), pid))
  {
    var t := s.(arrived := s.arrived + 1, seen := s.seen + {m});
    forall n: Msg
      ensures Unfinished(n, PlaceOf(t, n)) == Unfinished(n, PlaceOf(s, n))
      ensures PlaceOf(HoldQuota(t, pid), n) == PlaceOf(t, n)
    {
    }
    CoverFrame(s, t);
    CoverFrame(t, HoldQuota(t, pid));
    hide PlaceOf, Unfinished;
  }

  lemma RoutedCovers(s: State, m: Msg, sel: Selection)
    requires Covered(s) && OneHolder(s) && IdFinished(s, m.pid) && New(s, m) && s.blocked.None?
    requires 0 < m.qos <= 2 && m.pid in s.unacked
    ensures Covered(Route(s, m, sel)) && OneHolder(Route(s, m, sel))
  {
    RouteCovers(s, m, sel);
    hide PlaceOf, Unfinished, Route;
    CoverStep(s, Route(s, m, sel), m);
  }

  lemma Routed0Covers(s: State, m: Msg, sel: Selection)
    requires Covered(s) && OneHolder(s) && m.qos == 0 && s.blocked.None?
    ensures Covered(Route(s, m, sel)) && OneHolder(Route(s, m, sel))
  {
    match sel
    case Hold =>
      forall n: Msg
        ensures Unfinished(n, PlaceOf(Route(s, m, sel), n)) == Unfinished(n, PlaceOf(s, n))
      {
      }
      CoverFrame(s, Route(s, m, sel));
      hide PlaceOf, Unfinished;
    case Overflow =>
      forall n: Msg
        ensures PlaceOf(Route(s, m, sel), n) == PlaceOf(s, n)
      {
      }
      CoverFrame(s, Route(s, m, sel));
      hide PlaceOf, Unfinished;
    case Take(r, detached) =>
      QoS0Covers(s, m, r, detached, true);
      CoverFrame(s, Route(s, m, sel));
      hide PlaceOf, Unfinished, Deliver;
  }

  lemma TraceCovers(s: State, e: Event)
    requires Covered(s) && OneHolder(s)
    ensures Covered(Log(s, e)) && OneHolder(Log(s, e))
  {
    TracePlaces(s, s.trace + [e]);
    CoverFrame(s, Log(s, e));
    hide PlaceOf, Unfinished;
  }

  lemma AwayCovers(s: State, m: Msg)
    requires Covered(s) && OneHolder(s)
    ensures Covered(TurnAway(s, m)) && OneHolder(TurnAway(s, m))
  {
    forall n: Msg
      ensures PlaceOf(TurnAway(s, m), n) == PlaceOf(s, n)
    {
    }
    CoverFrame(s, TurnAway(s, m));
    hide PlaceOf, Unfinished;
  }

  lemma PublishCovers(s: State, m: Msg, sel: Selection)
    requires Sound(s) && Covered(s) && OneHolder(s) && Enabled(s, PublishStep(m, sel)) && Polite(s, PublishStep(m, sel))
    ensures Covered(Publish(s, m, sel)) && OneHolder(Publish(s, m, sel))
  {
    var t := s.(arrived := s.arrived + 1, seen := s.seen + {m});
    var q := HoldQuota(t, m.pid);
    EnabledPublish(s, m, sel);
    PoliteMeans(s, m, sel);
    hide *;
    ArrivedKeeps(s, m);
    ArrivedCovers(s, m, m.pid);
    QuotaKeeps(t, m.pid, m);
    QuotaParts(t, m.pid);
    PublishIs(s, m, sel);
    if m.qos == 0 {
      Routed0Covers(t, m, sel);
    } else {
      AwayCovers(q, m);
    }
    if m.qos > 0 && !q.closed {
      if m.qos == 2 && m.pid in q.inflight {
        TraceCovers(q, PubRecSent(q.inflight[m.pid].msg));
        AwayCovers(Log(q, PubRecSent(q.inflight[m.pid].msg)), m);
      } else if !HeldId(q.held, m.pid) && !(m.qos == 2 && m.pid in q.pendingAck) {
        RoutedCovers(q, m, sel);
      }
    }
  }

  lemma EnabledPublish(s: State, m: Msg, sel: Selection)
    requires Enabled(s, PublishStep(m, sel))
    ensures s.blocked.None? && m.serial == s.arrived && 0 <= m.qos <= 2
  {
  }

  lemma PoliteMeans(s: State, m: Msg, sel: Selection)
    requires Polite(s, PublishStep(m, sel))
    ensures m.qos > 0 ==> IdFinished(s, m.pid) || (m.qos == 2 && (m.pid in s.inflight || m.pid in s.pendingAck)) || HeldId(s.held, m.pid)
  {
    hide IdFinished, HeldId;
  }

  lemma QuotaParts(s: State, pid: int)
    ensures var q := HoldQuota(s, pid);
            && q.inflight == s.inflight && q.pendingAck == s.pendingAck && q.held == s.held && q.blocked == s.blocked
            && pid in q.unacked
  {
  }

  lemma PublishIs(s: State, m: Msg, sel: Selection)
    ensures var t := s.(arrived := s.arrived + 1, seen := s.seen + {m}); var q := HoldQuota(t, m.pid);
            Publish(s, m, sel) ==
            if m.qos == 0 then Route(t, m, sel)
            else if q.closed then TurnAway(q, m)
            else if m.qos == 2 && m.pid in q.inflight then TurnAway(Log(q, PubRecSent(q.inflight[m.pid].msg)), m)
            else if m.qos == 2 && m.pid in q.pendingAck then TurnAway(q, m)
            else if HeldId(q.held, m.pid) then TurnAway(q, m)
            else Route(q, m, sel)
  {
    hide Route, HeldId;
  }

  lemma PubRelCovers(s: State, pid: int, detached: bool)
    requires Sound(s) && Covered(s) && OneHolder(s) && s.blocked.None? && pid in s.inflight
    ensures Covered(PubRel(s, pid, detached)) && OneHolder(PubRel(s, pid, detached))
  {
    var m := s.inflight[pid].msg;
    var z := PubRel(s, pid, detached);
    FlightRemoved(s, pid);
    FlightAlone(s, pid);
    PubRelIs(s, pid, detached);
    hide Sound, PlaceOf, PubRel, Covered, OneHolder;
    HolderAlone(s, m);
    WaitPlaces(s.(inflight := s.inflight - {pid}), z, m, z.blocked.Some?);
    CoverStep(s, z, m);
  }

  lemma FinishCovers(s: State, detached: bool)
    requires Sound(s) && Covered(s) && OneHolder(s) && s.blocked.Some?
    ensures Covered(FinishPut(s, detached)) && OneHolder(FinishPut(s, detached))
  {
    var m := s.blocked.value.msg;
    var z := FinishPut(s, detached);
    FinishIs(s, detached);
    FinishPlaces(s, z);
    MsgIsOk(s, m);
    if s.blocked.value.ack {
      WaitingPlace(s.trace, m, PlaceOf(s, m));
    }
    hide Sound, PlaceOf, FinishPut, MsgOk;
    if s.blocked.value.ack {
      HolderAlone(s, m);
      hide Covered, OneHolder;
      CoverStep(s, z, m);
    } else {
      CoverFrame(s, z);
      hide Covered, OneHolder;
    }
  }

  /** A message whose PUBACK waits for room in the queue is unfinished on no other account. */
  lemma WaitingPlace(trace: Trace, m: Msg, p: Place)
    requires MsgOk(trace, m, p) && p.wait == Some(true)
    ensures !p.held && p.flight.None? && !p.pending && !p.callback
  {
  }

  lemma AppAckCovers(s: State, m: Msg)
    requires Sound(s) && Covered(s) && OneHolder(s) && Enqueued(m) in s.trace && AppAcked(m) !in s.trace
    ensures Covered(AppAck(s, m)) && OneHolder(AppAck(s, m))
  {
    var z := AppAck(s, m);
    var p := PlaceOf(s, m);
    SoundParts(s);
    AppAckIs(s, m);
    PlaceParts(s, m);
    MsgIsOk(s, m);
    CallbackQoS(s, m);
    if m in s.callbacks {
      CallbackPlace(s.trace, m, p);
      AppAckPlaces(s, z, m);
      hide Sound, PlaceOf, AppAck, MsgOk, Tables, IdsDisjoint, Justified;
      HolderAlone(s, m);
      hide Covered, OneHolder;
      CoverStep(s, z, m);
    } else if m.pid in s.pendingAck && s.pendingAck[m.pid] == m {
      PendingToFlight(s, z, m);
      hide Sound, PlaceOf, AppAck, MsgOk, Tables, IdsDisjoint, Justified;
      CoverFrame(s, z);
      hide Covered, OneHolder;
    } else {
      TracePlaces(s, z.trace);
      hide Sound, PlaceOf, AppAck, MsgOk, Tables, IdsDisjoint, Justified;
      CoverFrame(s, z);
      hide Covered, OneHolder;
    }
  }

  /** A QoS 1 message that awaits ack() and is on its queue is unfinished on no other account. */
  lemma CallbackPlace(trace: Trace, m: Msg, p: Place)
    requires MsgOk(trace, m, p) && p.callback && Enqueued(m) in trace && Justified(trace)
    ensures !p.held && p.flight.None? && !p.pending && p.wait.None?
  {
    NoExchangeBelowTwo(trace, m);
    hide Justified;
  }

  lemma DrainCovers(s: State, m: Msg, r: Recipient, detached: bool)
    requires Sound(s) && Covered(s) && OneHolder(s) && m in s.held
    ensures Covered(Drain(s, m, r, detached)) && OneHolder(Drain(s, m, r, detached))
  {
    var t := s.(held := s.held - {m});
    UnholdKeeps(s, m);
    UnheldPlaces(s, m);
    var z := Drain(s, m, r, detached);
    NewNowhere(t, m);
    if m.qos == 0 {
      QoS0Covers(t, m, r, detached, false);
      hide Sound, New, PlaceOf, Unfinished, Deliver;
      CoverFrame(s, z);
      hide Covered, OneHolder;
    } else {
      hide Deliver, DeliverQoS1, AcceptQoS2, Sound, New, IdFree, PlaceOf;
      HeldUnfinished(s, m);
      HolderAlone(s, m);
      if m.qos == 1 {
        QoS1Covers(t, m, r, detached, false);
      } else {
        AcceptCovers(t, m, r, detached, false);
      }
      hide Covered, OneHolder, Unfinished;
      CoverStep(s, z, m);
    }
  }

  lemma UnheldPlaces(s: State, m: Msg)
    requires m in s.held
    ensures forall n: Msg :: n != m ==> PlaceOf(s.(held := s.held - {m}), n) == PlaceOf(s, n)
    ensures m.qos == 0 ==> forall n: Msg ::
              Unfinished(n, PlaceOf(s.(held := s.held - {m}), n)) == Unfinished(n, PlaceOf(s, n))
  {
  }

  lemma HeldUnfinished(s: State, m: Msg)
    requires m in s.held && m.qos > 0
    ensures Unfinished(m, PlaceOf(s, m))
  {
  }

  lemma DropCovers(s: State, gone: set<Msg>, replay: ReplayState, closed: bool)
    requires Covered(s) && OneHolder(s)
    ensures var z := Drop(s, gone, replay).(closed := closed); Covered(z) && OneHolder(z)
  {
    var z := Drop(s, gone, replay).(closed := closed);
    DropPlaces(s, gone, replay, closed);
    CoverFrame(s, z);
    hide PlaceOf, Unfinished;
  }

  lemma ReplayCovers(s: State, replay: ReplayState)
    requires Covered(s) && OneHolder(s)
    ensures Covered(s.(replay := replay)) && OneHolder(s.(replay := replay))
  {
    forall n: Msg
      ensures PlaceOf(s.(replay := replay), n) == PlaceOf(s, n)
    {
    }
    CoverFrame(s, s.(replay := replay));
    hide PlaceOf, Unfinished;
  }

  lemma StepCovers(s: State, e: Step)
    requires Sound(s) && Covered(s) && OneHolder(s) && Enabled(s, e) && Polite(s, e)
    ensures Covered(Apply(s, e)) && OneHolder(Apply(s, e))
  {
    match e
    case PublishStep(m, sel) => PublishCovers(s, m, sel);
    case PubRelStep(pid, detached) =>
      if pid in s.inflight {
        PubRelCovers(s, pid, detached);
      } else {
        TraceCovers(s, StrayPubComp(pid));
      }
      hide Covered, OneHolder, Sound;
    case FinishPutStep(detached) => FinishCovers(s, detached);
    case AppAckStep(m) => AppAckCovers(s, m);
    case DrainStep(m, r, detached) => DrainCovers(s, m, r, detached);
    case DrainEndStep => ReplayCovers(s, if s.held != {} then Buffered else Idle);
    case ExpireStep => DropCovers(s, s.held, if s.held != {} then NoSession else Idle, s.closed);
    case ClearStep(inHands) => DropCovers(s, s.held - inHands, NoSession, true);
  }

  ghost predicate PoliteRun(s: State, steps: seq<Step>)
    decreases |steps|
  {
    steps != [] && Enabled(s, steps[0]) ==> Polite(s, steps[0]) && PoliteRun(Apply(s, steps[0]), steps[1..])
  }

  lemma {:induction false} RunsCover(s: State, steps: seq<Step>, end: State)
    requires Sound(s) && Covered(s) && OneHolder(s) && Runs(s, steps, end) && PoliteRun(s, steps)
    ensures Covered(end)
    decreases |steps|
  {
    hide Sound, Covered, OneHolder, Enabled, Apply, Polite;
    if steps != [] {
      StepKeeps(s, steps[0]);
      StepCovers(s, steps[0]);
      RunsCover(Apply(s, steps[0]), steps[1..], end);
    }
  }

  /**
   * With a broker that never reuses an unfinished identifier, every identifier held in replay, awaiting ack() or
   * awaiting PUBREL counts against Receive Maximum until its PUBACK or PUBCOMP.
   */
  lemma UnfinishedIsCounted(limit: Option<nat>, sessionPresent: bool, steps: seq<Step>, end: State)
    requires Runs(Initial(limit, sessionPresent), steps, end) && PoliteRun(Initial(limit, sessionPresent), steps)
    ensures forall pid :: pid in end.inflight ==> pid in end.unacked
    ensures forall pid :: pid in end.pendingAck ==> pid in end.unacked
    ensures forall m :: (m in end.held && m.qos > 0) || m in end.callbacks ==> m.pid in end.unacked
  {
    var start := Initial(limit, sessionPresent);
    InitialSound(limit, sessionPresent);
    assert forall n: Msg :: !Unfinished(n, PlaceOf(start, n));
    RunsCover(start, steps, end);
    RunsKeep(start, steps, end);
    SoundParts(end);
    forall pid | pid in end.inflight
      ensures pid in end.unacked
    {
      assert Unfinished(end.inflight[pid].msg, PlaceOf(end, end.inflight[pid].msg));
    }
    forall pid | pid in end.pendingAck
      ensures pid in end.unacked
    {
      assert Unfinished(end.pendingAck[pid], PlaceOf(end, end.pendingAck[pid]));
    }
    forall m | (m in end.held && m.qos > 0) || m in end.callbacks
      ensures m.pid in end.unacked
    {
      assert Unfinished(m, PlaceOf(end, m));
    }
    hide Sound, Runs, PoliteRun, IdsDisjoint, Justified;
  }

  // Exactly when a unit is lost.

  predicate EndsFlow(e: Event, m: Msg) { e == PubAckSent(m) || e == PubCompSent(m) }

  /** The step sends the PUBACK or PUBCOMP of `m`. */
  predicate Ended(s: State, z: State, m: Msg) {
    |s.trace| <= |z.trace| && exists k :: |s.trace| <= k < |z.trace| && EndsFlow(z.trace[k], m)
  }

  /** The unit of `m` is given back, and nobody else's place matters. */
  ghost predicate GivesBack(s: State, z: State, m: Msg) {
    && z.unacked == s.unacked - {m.pid} && !Unfinished(m, PlaceOf(z, m))
    && forall n: Msg :: n != m ==> Unfinished(n, PlaceOf(z, n)) == Unfinished(n, PlaceOf(s, n))
  }

  /** No unit is given back, and whoever becomes unfinished has one. */
  ghost predicate OnlyTakes(s: State, z: State) {
    && z.unacked >= s.unacked
    && forall n: Msg :: Unfinished(n, PlaceOf(z, n)) ==> Unfinished(n, PlaceOf(s, n)) || n.pid in z.unacked
  }

  /** A change either ends one message's flow or none. */
  ghost predicate Accounts(s: State, z: State, m: Msg) {
    && (Ended(s, z, m) ==> GivesBack(s, z, m))
    && (!Ended(s, z, m) ==> OnlyTakes(s, z))
    && forall n: Msg :: n != m ==> !Ended(s, z, n)
  }

  /** A change that adds these events, on `m` alone. */
  lemma EndedBy(s: State, z: State, events: Trace, m: Msg)
    requires z.trace == s.trace + events && AllConcern(events, m)
    ensures Ended(s, z, m) <==> PubAckSent(m) in events || PubCompSent(m) in events
    ensures forall n: Msg :: n != m ==> !Ended(s, z, n)
  {
    assert forall k :: 0 <= k < |events| ==> events[k] in events && Concerns(events[k], m);
    assert forall k :: |s.trace| <= k < |z.trace| ==> z.trace[k] == events[k - |s.trace|];
    assert forall k :: 0 <= k < |events| ==> events[k] == z.trace[|s.trace| + k];
  }

  /** What `_deliver` adds to the history. */
  function DeliverEvents(m: Msg, r: Recipient, detached: bool, ack: bool, reading: bool): Trace {
    match r
    case Request => if ack then [Handed(m), PubAckSent(m)] else [Handed(m)]
    case Nobody => if ack then [Unclaimed(m), PubAckSent(m)] else [Unclaimed(m)]
    case Subscription(_) =>
      if detached then [Refused(m)]
      else if reading then []
      else if ack then [Enqueued(m), PubAckSent(m)] else [Enqueued(m)]
  }

  lemma DeliverIs(s: State, m: Msg, r: Recipient, detached: bool, ack: bool, reading: bool)
    ensures var events := DeliverEvents(m, r, detached, ack, reading); var z := Deliver(s, m, r, detached, ack, reading);
            && AllConcern(events, m) && PubCompSent(m) !in events
            && z == s.(trace := s.trace + events, unacked := if PubAckSent(m) in events then s.unacked - {m.pid} else s.unacked,
                       blocked := if r.Subscription? && !detached && reading then Some(Put(m, ack)) else s.blocked)
  {
    SettledIs(s, m, Handed(m));
    SettledIs(s, m, Unclaimed(m));
    SettledIs(s, m, Enqueued(m));
    SettledIs(s, m, Refused(m));
    assert s.trace + [] == s.trace;
  }

  lemma DeliverAccountsUnits(s: State, m: Msg, r: Recipient, detached: bool, ack: bool, reading: bool)
    requires PlaceOf(s, m) == NOWHERE && (ack ==> m.pid in s.unacked) && (reading ==> s.blocked.None?)
    ensures Accounts(s, Deliver(s, m, r, detached, ack, reading), m)
  {
    var events := DeliverEvents(m, r, detached, ack, reading);
    var z := Deliver(s, m, r, detached, ack, reading);
    DeliverIs(s, m, r, detached, ack, reading);
    EndedBy(s, z, events, m);
    hide Deliver, AllConcern, Ended;
    if z.blocked == s.blocked {
      SamePlaces(s, z);
    } else {
      BlockedPlaces(s, z, m, ack);
      assert PubAckSent(m) !in events;
    }
    hide PlaceOf, DeliverEvents;
  }

  lemma SamePlaces(s: State, z: State)
    requires z == s.(unacked := z.unacked, trace := z.trace)
    ensures forall n: Msg :: PlaceOf(z, n) == PlaceOf(s, n)
  {
  }

  lemma BlockedPlaces(s: State, z: State, m: Msg, ack: bool)
    requires s.blocked.None? && z == s.(unacked := z.unacked, trace := z.trace, blocked := Some(Put(m, ack)))
    ensures forall n: Msg :: PlaceOf(z, n) == if n == m then PlaceOf(s, n).(wait := Some(ack)) else PlaceOf(s, n)
  {
  }

  /** Nothing ended, no unit given back, and `m` alone may have become unfinished. */
  lemma SparesAccounts(s: State, z: State, m: Msg, events: Trace)
    requires Spares(s, z, m) && z.unacked == s.unacked && z.trace == s.trace + events && AllConcern(events, m)
    requires PubAckSent(m) !in events && PubCompSent(m) !in events
    ensures Accounts(s, z, m)
  {
    EndedBy(s, z, events, m);
    hide Ended, PlaceOf, Unfinished, AllConcern;
  }

  lemma QoS1AccountsUnits(s: State, m: Msg, r: Recipient, detached: bool, reading: bool)
    requires PlaceOf(s, m) == NOWHERE && m.pid in s.unacked && m.qos == 1 && (reading ==> s.blocked.None?)
    ensures Accounts(s, DeliverQoS1(s, m, r, detached, reading), m)
  {
    var z := DeliverQoS1(s, m, r, detached, reading);
    RefusedConcerns(m);
    TwoConcern(m);
    hide Deliver, PlaceOf, Accounts, Spares, AllConcern;
    if Auto(r) {
      DeliverAccountsUnits(s, m, r, detached, true, reading);
    } else if detached {
      RefusedSpares(s, m);
      SparesAccounts(s, z, m, [Refused(m)]);
    } else {
      assert r == Subscription(false);
      ManualCovers(s, m, reading);
      ManualQoS1Is(s, m, reading);
      SparesAccounts(s, z, m, if reading then [Manual(m)] else [Manual(m), Enqueued(m)]);
    }
  }

  lemma RefusedConcerns(m: Msg)
    ensures AllConcern([Refused(m)], m) && AllConcern([], m)
  {
  }

  lemma AcceptAccountsUnits(s: State, m: Msg, r: Recipient, detached: bool, reading: bool)
    requires PlaceOf(s, m) == NOWHERE && m.pid in s.unacked && m.qos == 2 && (reading ==> s.blocked.None?)
    ensures Accounts(s, AcceptQoS2(s, m, r, detached, reading), m)
  {
    var z := AcceptQoS2(s, m, r, detached, reading);
    AcceptCovers(s, m, r, detached, reading);
    RefusedConcerns(m);
    TwoConcern(m);
    hide Deliver, PlaceOf, Accounts, Spares, AllConcern;
    if r.Subscription? && detached {
      SparesAccounts(s, z, m, [Refused(m)]);
    } else if Auto(r) {
      assert s.trace + [Accepted(m)] + [PubRecSent(m)] == s.trace + [Accepted(m), PubRecSent(m)];
      SparesAccounts(s, z, m, [Accepted(m), PubRecSent(m)]);
    } else {
      assert r == Subscription(false);
      AcceptManualIs(s, m, reading);
      SparesAccounts(s, z, m, if reading then [Accepted(m), Manual(m)] else [Accepted(m), Manual(m), Enqueued(m)]);
    }
  }

  /** What comes before changes nobody's place but that of `m`, and may count its identifier. */
  lemma AccountsAfter(s: State, y: State, z: State, m: Msg)
    requires Accounts(y, z, m) && y.trace == s.trace && PlaceOf(y, m) == NOWHERE
    requires y.unacked == s.unacked || y.unacked == s.unacked + {m.pid}
    requires forall n: Msg :: n != m ==> Unfinished(n, PlaceOf(y, n)) == Unfinished(n, PlaceOf(s, n))
    ensures Accounts(s, z, m)
  {
    assert forall n: Msg :: Ended(s, z, n) <==> Ended(y, z, n);
    assert !Unfinished(m, PlaceOf(y, m));
    hide Ended, PlaceOf, Unfinished;
  }

  lemma RouteAccountsUnits(s: State, m: Msg, sel: Selection)
    requires PlaceOf(s, m) == NOWHERE && s.blocked.None? && 0 <= m.qos <= 2 && (m.qos > 0 ==> m.pid in s.unacked)
    ensures Accounts(s, Route(s, m, sel), m)
  {
    var z := Route(s, m, sel);
    RouteIs(s, m, sel);
    RefusedConcerns(m);
    if sel.Take? {
      hide Route, PlaceOf, Accounts, Deliver, DeliverQoS1, AcceptQoS2;
      if m.qos == 0 {
        DeliverAccountsUnits(s, m, sel.recipient, sel.detached, false, true);
      } else if m.qos == 1 {
        QoS1AccountsUnits(s, m, sel.recipient, sel.detached, true);
      } else {
        AcceptAccountsUnits(s, m, sel.recipient, sel.detached, true);
      }
    } else {
      assert s.trace + [] == s.trace;
      assert Spares(s, z, m);
      hide Route, PlaceOf, Accounts, Spares, AllConcern;
      SparesAccounts(s, z, m, []);
    }
  }

  /** Nothing ended, and nobody's place changed. */
  lemma QuietAccounts(s: State, z: State, m: Msg, x: Msg)
    requires z.trace == s.trace || z.trace == s.trace + [PubRecSent(x)]
    requires z.unacked >= s.unacked
    requires forall n: Msg :: Unfinished(n, PlaceOf(z, n)) ==> Unfinished(n, PlaceOf(s, n))
    ensures Accounts(s, z, m)
  {
    assert forall k :: |s.trace| <= k < |z.trace| ==> z.trace[k] == PubRecSent(x);
    hide PlaceOf, Unfinished;
  }

  lemma ArrivedUnfinished(s: State, m: Msg)
    ensures var t := s.(arrived := s.arrived + 1, seen := s.seen + {m}); var q := HoldQuota(t, m.pid);
            && t.trace == s.trace && q.trace == s.trace && t.unacked == s.unacked && q.unacked == s.unacked + {m.pid}
            && (forall n: Msg :: Unfinished(n, PlaceOf(t, n)) == Unfinished(n, PlaceOf(s, n)))
            && forall n: Msg :: PlaceOf(q, n) == PlaceOf(t, n)
  {
  }

  lemma AwayPlaces(s: State, m: Msg, x: Msg)
    ensures forall n: Msg :: PlaceOf(TurnAway(s, m), n) == PlaceOf(s, n) && PlaceOf(TurnAway(Log(s, PubRecSent(x)), m), n) == PlaceOf(s, n)
    ensures TurnAway(s, m).trace == s.trace && TurnAway(s, m).unacked == s.unacked
    ensures TurnAway(Log(s, PubRecSent(x)), m).trace == s.trace + [PubRecSent(x)] && TurnAway(Log(s, PubRecSent(x)), m).unacked == s.unacked
  {
  }

  lemma PublishAccountsUnits(s: State, m: Msg, sel: Selection)
    requires Sound(s) && Enabled(s, PublishStep(m, sel))
    ensures Accounts(s, Publish(s, m, sel), m)
  {
    var t := s.(arrived := s.arrived + 1, seen := s.seen + {m});
    var q := HoldQuota(t, m.pid);
    var z := Publish(s, m, sel);
    EnabledPublish(s, m, sel);
    hide *;
    ArrivedKeeps(s, m);
    QuotaKeeps(t, m.pid, m);
    NewNowhere(t, m);
    NewNowhere(q, m);
    QuotaParts(t, m.pid);
    ArrivedUnfinished(s, m);
    PublishIs(s, m, sel);
    if z == Route(t, m, sel) && m.qos == 0 {
      RouteAccountsUnits(t, m, sel);
      AccountsAfter(s, t, z, m);
    } else if z == Route(q, m, sel) && m.qos > 0 {
      RouteAccountsUnits(q, m, sel);
      AccountsAfter(s, q, z, m);
    } else {
      var x := if m.pid in q.inflight then q.inflight[m.pid].msg else m;
      AwayPlaces(q, m, x);
      QuietAccounts(s, z, m, x);
    }
  }

  lemma PubRelAccountsUnits(s: State, pid: int, gone: bool)
    requires Sound(s) && s.blocked.None? && pid in s.inflight
    ensures Accounts(s, PubRel(s, pid, gone), s.inflight[pid].msg)
  {
    var f := s.inflight[pid];
    var m := f.msg;
    var z := PubRel(s, pid, gone);
    var events := if f.delivered then [PubCompSent(m)] else AfterComp(m, f.recipient, gone);
    FlightRemoved(s, pid);
    FlightAlone(s, pid);
    PubRelIs(s, pid, gone);
    AfterCompConcern(m, f.recipient, gone);
    AfterCompIs(m, f.recipient, gone);
    WaitPlaces(s.(inflight := s.inflight - {pid}), z, m, z.blocked.Some?);
    EndedBy(s, z, events, m);
    assert events[0] == PubCompSent(m);
    hide Sound, PlaceOf, PubRel, AfterComp, AllConcern, Ended, MsgOk, Tables, IdsDisjoint;
  }

  lemma FinishAccountsUnits(s: State, detached: bool)
    requires Sound(s) && Covered(s) && s.blocked.Some?
    ensures Accounts(s, FinishPut(s, detached), s.blocked.value.msg)
  {
    var Put(m, ack) := s.blocked.value;
    var z := FinishPut(s, detached);
    FinishIs(s, detached);
    FinishPlaces(s, z);
    FinishedConcern(m, ack, detached);
    EndedBy(s, z, Finished(m, ack, detached), m);
    MsgIsOk(s, m);
    if ack {
      WaitingPlace(s.trace, m, PlaceOf(s, m));
    }
    hide Sound, PlaceOf, FinishPut, AllConcern, Ended, MsgOk;
  }

  lemma FinishedConcern(m: Msg, ack: bool, detached: bool)
    ensures AllConcern(Finished(m, ack, detached), m) && PubCompSent(m) !in Finished(m, ack, detached)
    ensures PubAckSent(m) in Finished(m, ack, detached) <==> ack && !detached
  {
  }

  lemma AppAckAccountsUnits(s: State, m: Msg)
    requires Sound(s) && Enqueued(m) in s.trace && AppAcked(m) !in s.trace
    ensures Accounts(s, AppAck(s, m), m)
  {
    var z := AppAck(s, m);
    SoundParts(s);
    AppAckIs(s, m);
    PlaceParts(s, m);
    MsgIsOk(s, m);
    CallbackQoS(s, m);
    QueuedConcern(m);
    if m in s.callbacks {
      CallbackPlace(s.trace, m, PlaceOf(s, m));
      AppAckPlaces(s, z, m);
      hide Sound, PlaceOf, AppAck, MsgOk, Tables, IdsDisjoint, Justified, AllConcern;
      EndedBy(s, z, [AppAcked(m), PubAckSent(m)], m);
      hide Ended;
    } else if m.pid in s.pendingAck && s.pendingAck[m.pid] == m {
      PendingToFlight(s, z, m);
      hide Sound, PlaceOf, AppAck, MsgOk, Tables, IdsDisjoint, Justified, AllConcern;
      EndedBy(s, z, [AppAcked(m), PubRecSent(m)], m);
      hide Ended;
    } else {
      SamePlaces(s, z);
      hide Sound, PlaceOf, AppAck, MsgOk, Tables, IdsDisjoint, Justified, AllConcern;
      EndedBy(s, z, [AppAcked(m)], m);
      hide Ended;
    }
  }

  lemma DrainAccountsUnits(s: State, m: Msg, r: Recipient, detached: bool)
    requires Sound(s) && Covered(s) && m in s.held
    ensures Accounts(s, Drain(s, m, r, detached), m)
  {
    var t := s.(held := s.held - {m});
    UnholdKeeps(s, m);
    UnheldPlaces(s, m);
    NewNowhere(t, m);
    var z := Drain(s, m, r, detached);
    hide Deliver, DeliverQoS1, AcceptQoS2, Sound, New, IdFree, PlaceOf, Accounts;
    if m.qos > 0 {
      HeldUnfinished(s, m);
    }
    hide Unfinished;
    if m.qos == 0 {
      DeliverAccountsUnits(t, m, r, detached, false, false);
    } else if m.qos == 1 {
      QoS1AccountsUnits(t, m, r, detached, false);
    } else {
      AcceptAccountsUnits(t, m, r, detached, false);
    }
    AccountsAfter(s, t, z, m);
  }

  lemma DropPlaces(s: State, gone: set<Msg>, replay: ReplayState, closed: bool)
    ensures var z := Drop(s, gone, replay).(closed := closed);
            forall n: Msg :: Unfinished(n, PlaceOf(z, n)) ==> Unfinished(n, PlaceOf(s, n))
    ensures forall n: Msg :: PlaceOf(s.(replay := replay), n) == PlaceOf(s, n)
  {
  }

  lemma StepAccountsUnits(s: State, e: Step)
    requires Sound(s) && Covered(s) && Enabled(s, e)
    ensures exists m: Msg :: Accounts(s, Apply(s, e), m)
  {
    var z := Apply(s, e);
    var x := Msg(0, 0, 0);
    hide Sound, Covered, Accounts, Publish, PubRel, AppAck, Drain, FinishPut, PlaceOf, Unfinished;
    match e
    case PublishStep(m, sel) => PublishAccountsUnits(s, m, sel);
    case PubRelStep(pid, gone) =>
      if pid in s.inflight {
        PubRelAccountsUnits(s, pid, gone);
      } else {
        StrayAccountsUnits(s, pid);
      }
    case FinishPutStep(detached) => FinishAccountsUnits(s, detached);
    case AppAckStep(m) => AppAckAccountsUnits(s, m);
    case DrainStep(m, r, detached) => DrainAccountsUnits(s, m, r, detached);
    case DrainEndStep =>
      DropPlaces(s, {}, z.replay, s.closed);
      QuietAccounts(s, z, x, x);
    case ExpireStep =>
      DropPlaces(s, s.held, z.replay, s.closed);
      QuietAccounts(s, z, x, x);
    case ClearStep(inHands) =>
      DropPlaces(s, s.held - inHands, z.replay, true);
      QuietAccounts(s, z, x, x);
  }

  lemma StrayAccountsUnits(s: State, pid: int)
    requires pid !in s.inflight
    ensures Accounts(s, PubRel(s, pid, true), Msg(0, 0, 0)) && Accounts(s, PubRel(s, pid, false), Msg(0, 0, 0))
  {
    SamePlaces(s, Log(s, StrayPubComp(pid)));
    hide PlaceOf, Unfinished;
  }

  lemma AccountsCovers(s: State, z: State, m: Msg)
    requires Covered(s) && Accounts(s, z, m)
    ensures Ended(s, z, m) ==>
              (Covered(z) <==> forall n: Msg :: n != m && Unfinished(n, PlaceOf(s, n)) ==> n.pid != m.pid)
    ensures !Ended(s, z, m) ==> Covered(z)
  {
    hide Ended, PlaceOf, Unfinished;
  }

  /**
   * A step that sends the PUBACK or PUBCOMP of a message leaves every unfinished identifier counted if and only if no
   * other unfinished message has its identifier; a step that sends neither always does.
   */
  lemma StepCoversExactly(s: State, e: Step)
    requires Sound(s) && Covered(s) && Enabled(s, e)
    ensures forall m: Msg :: Ended(s, Apply(s, e), m) ==>
              (Covered(Apply(s, e)) <==> forall n: Msg :: n != m && Unfinished(n, PlaceOf(s, n)) ==> n.pid != m.pid)
    ensures (forall m: Msg :: !Ended(s, Apply(s, e), m)) ==> Covered(Apply(s, e))
  {
    var z := Apply(s, e);
    StepAccountsUnits(s, e);
    var m: Msg :| Accounts(s, z, m);
    AccountsCovers(s, z, m);
    assert forall n: Msg :: n != m ==> !Ended(s, z, n);
    hide Sound, Covered, Ended, PlaceOf, Unfinished, Enabled, Apply;
  }

  /** Whatever flow the step ends, no other unfinished message has its identifier. */
  ghost predicate EndsAlone(s: State, e: Step)
    requires Enabled(s, e)
  {
    forall m: Msg, n: Msg :: Ended(s, Apply(s, e), m) && n != m && Unfinished(n, PlaceOf(s, n)) ==> n.pid != m.pid
  }

  ghost predicate AlwaysCovered(s: State, steps: seq<Step>)
    decreases |steps|
  {
    Covered(s) && (steps != [] && Enabled(s, steps[0]) ==> AlwaysCovered(Apply(s, steps[0]), steps[1..]))
  }

  ghost predicate AlwaysAlone(s: State, steps: seq<Step>)
    decreases |steps|
  {
    steps != [] && Enabled(s, steps[0]) ==> EndsAlone(s, steps[0]) && AlwaysAlone(Apply(s, steps[0]), steps[1..])
  }

  lemma StepAlone(s: State, e: Step)
    requires Sound(s) && Covered(s) && Enabled(s, e)
    ensures Covered(Apply(s, e)) <==> EndsAlone(s, e)
  {
    StepCoversExactly(s, e);
    StepEndsOne(s, e);
    hide Sound, Covered, Ended, PlaceOf, Unfinished, Enabled, Apply;
  }

  lemma StepEndsOne(s: State, e: Step)
    requires Sound(s) && Covered(s) && Enabled(s, e)
    ensures forall m: Msg, n: Msg :: Ended(s, Apply(s, e), m) && Ended(s, Apply(s, e), n) ==> m == n
  {
    StepAccountsUnits(s, e);
    hide Sound, Covered, Ended, PlaceOf, Unfinished, Enabled, Apply;
  }

  lemma {:induction false} RunsAlone(s: State, steps: seq<Step>, end: State)
    requires Sound(s) && Covered(s) && Runs(s, steps, end)
    ensures AlwaysCovered(s, steps) <==> AlwaysAlone(s, steps)
    decreases |steps|
  {
    hide Sound, Covered, Enabled, Apply, EndsAlone;
    if steps != [] {
      StepKeeps(s, steps[0]);
      StepAlone(s, steps[0]);
      if Covered(Apply(s, steps[0])) {
        RunsAlone(Apply(s, steps[0]), steps[1..], end);
      } else {
        NotCovered(Apply(s, steps[0]), steps[1..]);
      }
    }
  }

  lemma NotCovered(s: State, steps: seq<Step>)
    requires !Covered(s)
    ensures !AlwaysCovered(s, steps)
  {
    hide Covered, Enabled, Apply;
  }

  /** Every unfinished identifier stays counted throughout a run if and only if every flow that ends in it ends alone. */
  lemma CountedThroughoutExactly(limit: Option<nat>, sessionPresent: bool, steps: seq<Step>, end: State)
    requires Runs(Initial(limit, sessionPresent), steps, end)
    ensures AlwaysCovered(Initial(limit, sessionPresent), steps) <==> AlwaysAlone(Initial(limit, sessionPresent), steps)
  {
    var start := Initial(limit, sessionPresent);
    InitialSound(limit, sessionPresent);
    assert forall n: Msg :: !Unfinished(n, PlaceOf(start, n));
    RunsAlone(start, steps, end);
  }

  /** A QoS 1 PUBLISH under the identifier of an exchange awaiting PUBREL takes that exchange's unit away. */
  lemma ReuseLosesCount()
    ensures var m, n := Msg(0, 2, 7), Msg(1, 1, 7);
            var s := Publish(Initial(Some(1), false), m, Take(Nobody, false));
            var z := Publish(s, n, Take(Nobody, false));
            7 in s.unacked && 7 in z.inflight && 7 !in z.unacked && !z.closed
  {
    var m, n := Msg(0, 2, 7), Msg(1, 1, 7);
    var s := Publish(Initial(Some(1), false), m, Take(Nobody, false));
    assert HoldQuota(Initial(Some(1), false).(arrived := 1), 7).unacked == {7};
    assert s.unacked == {7} && s.inflight == map[7 := Flight(m, Nobody, false)] && s.held == {};
    assert HoldQuota(s.(arrived := 2), 7).unacked == {7};
  }

  lemma StepValid(s: State, e: Step)
    requires Sound(s) && QuotaKept(s) && Enabled(s, e)
    ensures Sound(Apply(s, e)) && QuotaKept(Apply(s, e))
  {
    hide *;
    StepKeeps(s, e);
    StepQuota(s, e);
  }

  /** The message has not been dealt with, and the read loop is free if it is the one to deliver. */
  ghost predicate Ready(s: State, m: Msg, reading: bool) { New(s, m) && 0 <= m.qos <= 2 && (reading ==> s.blocked.None?) }

  lemma QuotaValid(s: State, pid: int)
    ensures Sound(s) ==> Sound(HoldQuota(s, pid))
    ensures QuotaKept(HoldQuota(s, pid))
  {
    if Sound(s) {
      SoundParts(s);
      PartsKeep(s, HoldQuota(s, pid));
    }
    hide Sound;
  }

  lemma DeliverValid(s: State, m: Msg, r: Recipient, detached: bool, ack: bool, reading: bool)
    ensures Ready(s, m, reading) && m.qos < 2 && (ack <==> m.qos == 1) && Sound(s) && QuotaKept(s) ==>
              var z := Deliver(s, m, r, detached, ack, reading); Sound(z) && QuotaKept(z)
  {
    hide Sound, QuotaKept, New, Deliver;
    if Ready(s, m, reading) && m.qos < 2 && (ack <==> m.qos == 1) && Sound(s) && QuotaKept(s) {
      DeliverKeeps(s, m, r, detached, ack, reading);
      DeliverSmaller(s, m, r, detached, ack, reading);
      Smaller(s, Deliver(s, m, r, detached, ack, reading));
    }
  }

  lemma QoS1Valid(s: State, m: Msg, r: Recipient, detached: bool, reading: bool)
    ensures Ready(s, m, reading) && m.qos == 1 && Sound(s) && QuotaKept(s) ==>
              var z := DeliverQoS1(s, m, r, detached, reading); Sound(z) && QuotaKept(z)
  {
    hide Sound, QuotaKept, New, DeliverQoS1, Route;
    if Ready(s, m, reading) && m.qos == 1 && Sound(s) && QuotaKept(s) {
      DeliverQoS1Keeps(s, m, r, detached, reading);
      QoSSmaller(s, m, r, detached, reading);
      Smaller(s, DeliverQoS1(s, m, r, detached, reading));
    }
  }

  lemma QoS2Valid(s: State, m: Msg, r: Recipient, detached: bool, reading: bool)
    ensures Ready(s, m, reading) && m.qos == 2 && IdFree(s, m.pid) && Sound(s) && QuotaKept(s) ==>
              var z := AcceptQoS2(s, m, r, detached, reading); Sound(z) && QuotaKept(z)
  {
    hide Sound, QuotaKept, New, AcceptQoS2, IdFree;
    if Ready(s, m, reading) && m.qos == 2 && IdFree(s, m.pid) && Sound(s) && QuotaKept(s) {
      AcceptQoS2Keeps(s, m, r, detached, reading);
      QoSSmaller(s, m, r, detached, reading);
      Smaller(s, AcceptQoS2(s, m, r, detached, reading));
    }
  }

  // What a step does to the messages held.

  lemma SelectsIs(s: State, m: Msg, sel: Selection)
    requires 0 <= m.qos <= 2
    ensures var t := s.(arrived := s.arrived + 1, seen := s.seen + {m}); var q := HoldQuota(t, m.pid);
            && t.trace == s.trace && t.inflight == s.inflight && q.trace == s.trace && q.inflight == s.inflight
            && SameHeld(t, q) && q.arrived == t.arrived
            && (Selects(s, m) ==>
                  && Publish(s, m, sel) == Route(if m.qos == 0 then t else q, m, sel)
                  && (m.qos == 2 ==> m.pid !in s.inflight))
            && (!Selects(s, m) ==>
                  var z := Publish(s, m, sel);
                  && SameHeld(s, z) && z.arrived == s.arrived + 1
                  && z.inflight == s.inflight && (z.trace == s.trace || exists x :: z.trace == s.trace + [PubRecSent(x)]))
  {
    PublishIs(s, m, sel);
    hide Route, Publish, HeldId;
  }

  predicate SameHeld(s: State, z: State) { z.held == s.held && z.replay == s.replay && z.dropped == s.dropped }

  lemma DeliverHolds(s: State, m: Msg, r: Recipient, detached: bool, ack: bool, reading: bool)
    ensures var z := Deliver(s, m, r, detached, ack, reading); SameHeld(s, z) && z.arrived == s.arrived && z.closed == s.closed
  {
  }

  lemma QoSHolds(s: State, m: Msg, r: Recipient, detached: bool, reading: bool)
    ensures var z := DeliverQoS1(s, m, r, detached, reading); SameHeld(s, z) && z.arrived == s.arrived && z.closed == s.closed
    ensures var z := AcceptQoS2(s, m, r, detached, reading); SameHeld(s, z) && z.arrived == s.arrived && z.closed == s.closed
  {
    DeliverHolds(s, m, r, detached, true, reading);
    DeliverHolds(Log(s.(callbacks := s.callbacks + {m}), Manual(m)), m, r, false, false, reading);
    DeliverHolds(Log(Log(s.(pendingAck := s.pendingAck[m.pid := m]), Accepted(m)), Manual(m)), m, r, false, false, reading);
    hide Deliver;
  }

  lemma RouteHolds(s: State, m: Msg, sel: Selection)
    ensures var z := Route(s, m, sel);
            && z.arrived == s.arrived && z.dropped == s.dropped
            && (sel.Hold? ==> z.held == s.held + {m} && z.replay == Buffered && z.closed == s.closed)
            && (!sel.Hold? ==> SameHeld(s, z)) && (sel.Overflow? ==> z.closed) && (sel.Take? ==> z.closed == s.closed)
  {
    if sel.Take? {
      DeliverHolds(s, m, sel.recipient, sel.detached, false, true);
      QoSHolds(s, m, sel.recipient, sel.detached, true);
      hide Deliver, DeliverQoS1, AcceptQoS2;
    }
  }

  /** Publishing holds exactly the selected messages the replay layer keeps. */
  lemma PublishHolds(s: State, m: Msg, sel: Selection)
    requires 0 <= m.qos <= 2
    ensures var z := Publish(s, m, sel);
            && z.arrived == s.arrived + 1 && z.dropped == s.dropped
            && (Selects(s, m) && sel.Hold? ==> z.held == s.held + {m} && z.replay == Buffered)
            && (!(Selects(s, m) && sel.Hold?) ==> SameHeld(s, z))
            && (Selects(s, m) && sel.Overflow? ==> z.closed)
  {
    hide *;
    var t := s.(arrived := s.arrived + 1, seen := s.seen + {m});
    var q := HoldQuota(t, m.pid);
    SelectsIs(s, m, sel);
    RouteHolds(t, m, sel);
    RouteHolds(q, m, sel);
    SameHeldMeans(s, t);
    SameHeldMeans(t, q);
    SameHeldMeans(t, Publish(s, m, sel));
    SameHeldMeans(q, Publish(s, m, sel));
    SameHeldMeans(s, Publish(s, m, sel));
  }

  lemma SameHeldMeans(s: State, z: State)
    ensures SameHeld(s, z) <==> z.held == s.held && z.replay == s.replay && z.dropped == s.dropped
  {
  }

  lemma DrainHolds(s: State, m: Msg, r: Recipient, detached: bool)
    ensures var z := Drain(s, m, r, detached);
            z.held == s.held - {m} && z.replay == s.replay && z.dropped == s.dropped && z.arrived == s.arrived && z.closed == s.closed
  {
    var t := s.(held := s.held - {m});
    DeliverHolds(t, m, r, detached, false, false);
    QoSHolds(t, m, r, detached, false);
    hide Deliver, DeliverQoS1, AcceptQoS2;
  }

  lemma OtherHolds(s: State, e: Step)
    requires Enabled(s, e) && (e.PubRelStep? || e.FinishPutStep? || e.AppAckStep?)
    ensures var z := Apply(s, e); SameHeld(s, z) && z.arrived == s.arrived && z.closed == s.closed
  {
    match e
    case PubRelStep(pid, gone) =>
      if pid in s.inflight {
        PubRelIs(s, pid, gone);
        hide PubRel;
      }
    case FinishPutStep(detached) => FinishIs(s, detached);
    case AppAckStep(m) =>
      AppAckIs(s, m);
      hide AppAck;
  }

  /** What was received stays so, and at most the message at hand is turned away. */
  lemma PublishSeen(s: State, m: Msg, sel: Selection)
    requires 0 <= m.qos <= 2
    ensures var z := Publish(s, m, sel); s.seen <= z.seen && z.turnedAway <= s.turnedAway + {m}
  {
    var t := s.(arrived := s.arrived + 1, seen := s.seen + {m});
    var q := if m.qos == 0 then t else HoldQuota(t, m.pid);
    PublishRecords(s, m, sel);
    RouteSeen(q, m, sel);
    hide Route, Publish, HeldId;
  }

  lemma RouteSeen(s: State, m: Msg, sel: Selection)
    ensures Route(s, m, sel).seen == s.seen && Route(s, m, sel).turnedAway <= s.turnedAway + {m}
  {
    if sel.Take? {
      DeliverRecords(s, m, sel.recipient, sel.detached, false, true);
      QoS1Records(s, m, sel.recipient, sel.detached, true);
      QoS2Records(s, m, sel.recipient, sel.detached, true);
      hide Deliver, DeliverQoS1, AcceptQoS2;
    }
  }

  /** Routing turns a message away only by closing the connection. */
  lemma RouteTurnsAway(s: State, m: Msg, sel: Selection)
    ensures Route(s, m, sel).turnedAway == s.turnedAway || Route(s, m, sel).closed
  {
    if sel.Take? {
      DeliverRecords(s, m, sel.recipient, sel.detached, false, true);
      QoS1Records(s, m, sel.recipient, sel.detached, true);
      QoS2Records(s, m, sel.recipient, sel.detached, true);
      hide Deliver, DeliverQoS1, AcceptQoS2;
    }
  }

  /** The other steps receive nothing and turn nobody away. */
  lemma OtherSeen(s: State, e: Step)
    requires Enabled(s, e) && !e.PublishStep?
    ensures Apply(s, e).seen == s.seen && Apply(s, e).turnedAway == s.turnedAway
  {
    match e
    case PubRelStep(pid, gone) =>
      if pid in s.inflight {
        PubRelIs(s, pid, gone);
        hide PubRel;
      }
    case FinishPutStep(detached) => FinishIs(s, detached);
    case AppAckStep(m) =>
      AppAckIs(s, m);
      hide AppAck;
    case DrainStep(m, r, detached) =>
      var t := s.(held := s.held - {m});
      DeliverRecords(t, m, r, detached, false, false);
      QoS1Records(t, m, r, detached, false);
      QoS2Records(t, m, r, detached, false);
      hide Deliver, DeliverQoS1, AcceptQoS2;
    case _ =>
  }

  /** A held message arrived before now. */
  lemma HeldArrived(s: State, m: Msg)
    requires Sound(s) && m in s.held
    ensures m.serial < s.arrived && 0 <= m.qos <= 2
  {
    MsgIsOk(s, m);
    PlaceHeld(s, m);
    HeldIsAlone(s.trace, m, PlaceOf(s, m));
    SoundParts(s);
    assert PlaceOf(s, m).future <==> m.serial >= s.arrived;
    hide Sound, MsgOk, IdsDisjoint, Justified;
  }

  // The flow as an object.

  class InboundPublishFlow {
    const limit: Option<nat>
    var closed: bool
    var unacked: set<int>
    var inflight: map<int, Flight>
    var pendingAck: map<int, Msg>
    var callbacks: set<Msg>
    var replay: ReplayState
    var held: set<Msg>
    var blocked: Option<Put>
    ghost var dropped: set<Msg>
    ghost var arrived: nat
    ghost var seen: set<Msg>
    ghost var turnedAway: set<Msg>
    ghost var trace: Trace

    ghost function Now(): State
      reads this
    {
      State(limit, closed, unacked, inflight, pendingAck, callbacks, replay, held, dropped, blocked, arrived, seen, turnedAway, trace)
    }

    ghost predicate Valid()
      reads this
    {
      Sound(Now()) && QuotaKept(Now())
    }

    constructor (limit: Option<nat>, sessionPresent: bool)
      ensures Now() == Initial(limit, sessionPresent)
      ensures Valid()
    {
      this.limit := limit;
      closed, unacked, inflight, pendingAck, callbacks := false, {}, map[], map[], {};
      replay, held, blocked := if sessionPresent then Idle else NoSession, {}, None;
      dropped, arrived, seen, turnedAway, trace := {}, 0, {}, {}, [];
      new;
      InitialSound(limit, sessionPresent);
    }

    /** `_hold_receive_quota`; closing stands for the abort and the MQTTProtocolError. */
    method HoldReceiveQuota(pid: int)
      modifies `unacked, `closed
      ensures Now() == HoldQuota(old(Now()), pid)
      ensures unacked == old(unacked) + {pid} && (old(Valid()) ==> Valid())
      ensures closed <==> old(closed) || (limit.Some? && |old(unacked) + {pid}| > limit.value)
      ensures !closed && limit.Some? ==> |unacked| <= limit.value
    {
      QuotaValid(Now(), pid);
      hide Sound;
      unacked := unacked + {pid};
      if limit.Some? && |unacked| > limit.value {
        closed := true;
      }
    }

    /** `_complete` with a PUBACK. */
    method CompletePubAck(m: Msg)
      modifies `unacked, `trace
      ensures Now() == SendPubAck(old(Now()), m)
    {
      unacked := unacked - {m.pid};
      trace := trace + [PubAckSent(m)];
    }

    /** `_deliver`, with the PUBACK that follows when it returns True. */
    method DeliverTo(m: Msg, r: Recipient, detached: bool, ack: bool, reading: bool)
      modifies `unacked, `blocked, `trace
      ensures Now() == Deliver(old(Now()), m, r, detached, ack, reading)
      ensures trace == old(trace) + DeliverEvents(m, r, detached, ack, reading)
      ensures old(Ready(Now(), m, reading)) && m.qos < 2 && (ack <==> m.qos == 1) && old(Valid()) ==> Valid()
    {
      DeliverIs(Now(), m, r, detached, ack, reading);
      DeliverValid(Now(), m, r, detached, ack, reading);
      hide Sound, QuotaKept, Ready, DeliverEvents, AllConcern;
      match r {
        case Request => trace := trace + [Handed(m)];
        case Nobody => trace := trace + [Unclaimed(m)];
        case Subscription(_) =>
          if detached {
            trace := trace + [Refused(m)];
            return;
          }
          if reading {
            blocked := Some(Put(m, ack));
            return;
          }
          trace := trace + [Enqueued(m)];
      }
      if ack {
        CompletePubAck(m);
      }
    }

    method DeliverQoS1Publish(m: Msg, r: Recipient, detached: bool, reading: bool)
      modifies `unacked, `callbacks, `blocked, `trace
      ensures Now() == DeliverQoS1(old(Now()), m, r, detached, reading)
      ensures callbacks == if !Auto(r) && !detached then old(callbacks) + {m} else old(callbacks)
      ensures !Auto(r) ==> unacked == old(unacked)
      ensures old(Ready(Now(), m, reading)) && m.qos == 1 && old(Valid()) ==> Valid()
    {
      QoS1Valid(Now(), m, r, detached, reading);
      DeliverIs(Log(Now().(callbacks := callbacks + {m}), Manual(m)), m, r, false, false, reading);
      hide Deliver, Sound, QuotaKept, Ready, AllConcern;
      if Auto(r) {
        DeliverTo(m, r, detached, true, reading);
      } else if detached {
        trace := trace + [Refused(m)];
      } else {
        callbacks := callbacks + {m};
        trace := trace + [Manual(m)];
        DeliverTo(m, r, false, false, reading);
      }
    }

    method AcceptQoS2Publish(m: Msg, r: Recipient, detached: bool, reading: bool)
      modifies `inflight, `pendingAck, `unacked, `blocked, `trace
      ensures Now() == AcceptQoS2(old(Now()), m, r, detached, reading)
      ensures inflight == if Auto(r) && !(r.Subscription? && detached) then old(inflight)[m.pid := Flight(m, r, false)] else old(inflight)
      ensures pendingAck == if !Auto(r) && !detached then old(pendingAck)[m.pid := m] else old(pendingAck)
      ensures unacked == old(unacked)
      ensures old(Ready(Now(), m, reading)) && m.qos == 2 && old(IdFree(Now(), m.pid)) && old(Valid()) ==> Valid()
    {
      QoS2Valid(Now(), m, r, detached, reading);
      DeliverIs(Log(Log(Now().(pendingAck := pendingAck[m.pid := m]), Accepted(m)), Manual(m)), m, r, false, false, reading);
      hide Deliver, Sound, QuotaKept, Ready, AllConcern, IdFree;
      if r.Subscription? && detached {
        trace := trace + [Refused(m)];
      } else if Auto(r) {
        inflight := inflight[m.pid := Flight(m, r, false)];
        trace := trace + [Accepted(m)] + [PubRecSent(m)];
      } else {
        pendingAck := pendingAck[m.pid := m];
        trace := trace + [Accepted(m)] + [Manual(m)];
        DeliverTo(m, r, false, false, reading);
      }
    }

    /** Select a recipient or buffer, then deliver by QoS. */
    method RouteMessage(m: Msg, sel: Selection)
      modifies `closed, `inflight, `pendingAck, `unacked, `callbacks, `blocked, `trace, `held, `replay, `turnedAway
      ensures Now() == Route(old(Now()), m, sel)
    {
      hide Deliver, DeliverQoS1, AcceptQoS2;
      match sel
      case Hold => held, replay := held + {m}, Buffered;
      case Overflow => closed, turnedAway := true, turnedAway + {m};
      case Take(r, detached) =>
        if m.qos == 0 {
          DeliverTo(m, r, detached, false, true);
        } else if m.qos == 1 {
          DeliverQoS1Publish(m, r, detached, true);
        } else {
          AcceptQoS2Publish(m, r, detached, true);
        }
    }

    method HandlePublish(m: Msg, sel: Selection)
      requires Valid() && Enabled(Now(), PublishStep(m, sel))
      modifies this
      ensures Now() == Publish(old(Now()), m, sel)
      ensures Valid()
    {
      hide Sound, QuotaKept, Route, HoldQuota, Enabled, HeldId, Publish;
      StepValid(Now(), PublishStep(m, sel));
      PublishIs(Now(), m, sel);
      arrived, seen := arrived + 1, seen + {m};
      if m.qos == 0 {
        RouteMessage(m, sel);
        return;
      }
      HoldReceiveQuota(m.pid);
      if closed {
        turnedAway := turnedAway + {m};
        return;
      }
      if m.qos == 2 && m.pid in inflight {
        trace := trace + [PubRecSent(inflight[m.pid].msg)];
        turnedAway := turnedAway + {m};
        return;
      }
      if m.qos == 2 && m.pid in pendingAck {
        turnedAway := turnedAway + {m};
        return;
      }
      if HeldId(held, m.pid) {
        turnedAway := turnedAway + {m};
        return;
      }
      RouteMessage(m, sel);
    }

    method HandlePubRel(pid: int, gone: bool)
      requires Valid() && Enabled(Now(), PubRelStep(pid, gone))
      modifies `inflight, `unacked, `blocked, `trace
      ensures Now() == PubRel(old(Now()), pid, gone)
      ensures pid !in old(inflight) ==> trace == old(trace) + [StrayPubComp(pid)] && unacked == old(unacked) && blocked == old(blocked)
      ensures inflight == old(inflight) - {pid}
      ensures pid in old(inflight) ==>
                var Flight(m, r, delivered) := old(inflight)[pid];
                var waits := !delivered && r.Subscription? && !gone;
                && unacked == old(unacked) - {pid} && blocked == (if waits then Some(Put(m, false)) else old(blocked))
                && trace == old(trace) +
                            if delivered || waits then [PubCompSent(m)] else if r.Nobody? then [PubCompSent(m), Unclaimed(m)]
                            else if !gone then [PubCompSent(m), Handed(m)]
                            else if r.Request? then [PubCompSent(m), Stale(m)] else [PubCompSent(m), Lost(m)]
      ensures Valid()
    {
      hide Sound, QuotaKept, Deliver, Enabled;
      StepValid(Now(), PubRelStep(pid, gone));
      assert pid !in inflight ==> inflight - {pid} == inflight;
      if pid in inflight {
        PubRelIs(Now(), pid, gone);
      }
      if pid !in inflight {
        trace := trace + [StrayPubComp(pid)];
        return;
      }
      var flight := inflight[pid];
      inflight, unacked := inflight - {pid}, unacked - {pid};
      trace := trace + [PubCompSent(flight.msg)];
      if !flight.delivered {
        if flight.recipient.Subscription? && gone {
          trace := trace + [Lost(flight.msg)];
        } else if flight.recipient.Request? && gone {
          trace := trace + [Stale(flight.msg)];
        } else {
          DeliverTo(flight.msg, flight.recipient, false, false, true);
        }
      }
    }

    /** `queue.put` returns; the entry may have been detached meanwhile. */
    method ResumePut(detached: bool)
      requires Valid() && Enabled(Now(), FinishPutStep(detached))
      modifies `unacked, `blocked, `trace
      ensures Now() == FinishPut(old(Now()), detached)
      ensures var Put(m, ack) := old(blocked).value;
              && blocked == None && unacked == (if ack && !detached then old(unacked) - {m.pid} else old(unacked))
              && trace == old(trace) + if detached then [Enqueued(m), Withdrawn(m)]
                                       else if ack then [Enqueued(m), PubAckSent(m)] else [Enqueued(m)]
      ensures Valid()
    {
      hide Sound, QuotaKept;
      StepValid(Now(), FinishPutStep(detached));
      var put := blocked.value;
      blocked := None;
      trace := trace + [Enqueued(put.msg)];
      if detached {
        trace := trace + [Withdrawn(put.msg)];
        return;
      }
      if put.ack {
        CompletePubAck(put.msg);
      }
    }

    /** The first `ack()` of a message; later ones do nothing. */
    method Ack(m: Msg)
      requires Valid() && Enabled(Now(), AppAckStep(m))
      modifies `inflight, `pendingAck, `callbacks, `unacked, `trace
      ensures Now() == AppAck(old(Now()), m)
      ensures var exchange := m !in old(callbacks) && m.qos == 2 && m.pid in old(pendingAck) && old(pendingAck)[m.pid] == m;
              && callbacks == old(callbacks) - {m} && unacked == (if m in old(callbacks) then old(unacked) - {m.pid} else old(unacked))
              && pendingAck == (if exchange then old(pendingAck) - {m.pid} else old(pendingAck))
              && inflight == (if exchange then old(inflight)[m.pid := Flight(m, Subscription(false), true)] else old(inflight))
              && trace == old(trace) + if m in old(callbacks) then [AppAcked(m), PubAckSent(m)]
                                       else if exchange then [AppAcked(m), PubRecSent(m)] else [AppAcked(m)]
      ensures Valid()
    {
      hide Sound, QuotaKept, Enabled;
      StepValid(Now(), AppAckStep(m));
      AppAckIs(Now(), m);
      hide AppAck;
      trace := trace + [AppAcked(m)];
      if m in callbacks {
        callbacks := callbacks - {m};
        CompletePubAck(m);
      } else if m.qos == 2 && m.pid in pendingAck && pendingAck[m.pid] == m {
        pendingAck := pendingAck - {m.pid};
        inflight := inflight[m.pid := Flight(m, Subscription(false), true)];
        trace := trace + [PubRecSent(m)];
      }
    }

    /** `deliver_replay` for one held message, and its removal from the buffer. */
    method DeliverReplay(m: Msg, r: Recipient, detached: bool)
      requires Valid() && Enabled(Now(), DrainStep(m, r, detached))
      modifies `inflight, `pendingAck, `callbacks, `unacked, `blocked, `trace, `held
      ensures Now() == Drain(old(Now()), m, r, detached)
      ensures Valid()
    {
      hide Sound, QuotaKept, Deliver, DeliverQoS1, AcceptQoS2, Enabled;
      StepValid(Now(), DrainStep(m, r, detached));
      held := held - {m};
      if m.qos == 0 {
        DeliverTo(m, r, detached, false, false);
      } else if m.qos == 1 {
        DeliverQoS1Publish(m, r, detached, false);
      } else {
        AcceptQoS2Publish(m, r, detached, false);
      }
    }

    /** The end of a drain. */
    method EndDrain()
      requires Valid() && Enabled(Now(), DrainEndStep)
      modifies `replay
      ensures Now() == Apply(old(Now()), DrainEndStep)
      ensures replay == if held == {} then Idle else Buffered
      ensures Valid()
    {
      hide Sound, QuotaKept;
      StepValid(Now(), DrainEndStep);
      replay := if held != {} then Buffered else Idle;
    }

    /** The end of `expire_replay`, after its pass. */
    method Expire()
      requires Valid() && Enabled(Now(), ExpireStep)
      modifies `replay, `held, `dropped
      ensures Now() == Apply(old(Now()), ExpireStep)
      ensures held == {} && dropped == old(dropped) + old(held) && replay == if old(held) == {} then Idle else NoSession
      ensures Valid()
    {
      hide Sound, QuotaKept;
      StepValid(Now(), ExpireStep);
      replay := if held != {} then NoSession else Idle;
      dropped, held := dropped + held, held - held;
    }

    /** The connection is over. */
    method Clear(inHands: set<Msg>)
      requires Valid() && Enabled(Now(), ClearStep(inHands))
      modifies `replay, `held, `dropped, `closed
      ensures Now() == Apply(old(Now()), ClearStep(inHands))
      ensures closed && replay == NoSession && held == inHands && dropped == old(dropped) + (old(held) - inHands)
      ensures Valid()
    {
      hide Sound, QuotaKept;
      StepValid(Now(), ClearStep(inHands));
      closed, replay := true, NoSession;
      dropped, held := dropped + (held - inHands), held - (held - inHands);
    }
  }
}
