/** Packet identifier ownership and the sender's side of QoS 1, QoS 2, SUBSCRIBE and UNSUBSCRIBE. */
module Outbound {
  import opened Util
  import opened Wire
  import opened TypedProperties
  import opened Codec
  import opened State

  /** An asyncio future; it leaves Pending at most once. */
  datatype FutureState = Pending | Done(packet: Packet) | Failed | Cancelled

  type FutureId = nat

  datatype QoS1Flight = QoS1Flight(publish: Packet, future: FutureId)

  datatype QoS2State = PendingPubRec | PendingPubComp

  datatype QoS2Flight = QoS2Flight(publish: Packet, state: QoS2State, future: FutureId)

  datatype OpError = Disconnected | QoSExceeded | RetainNotAvailable | NoFreeId | SendFailed | ProtocolError | InvalidState

  /** What a future was created for. */
  datatype Kind = AtLeastOnce | ExactlyOnce | Subscribing | Unsubscribing

  datatype Operation = Operation(kind: Kind, pid: int)

  predicate Answers(op: Operation, p: Packet) {
    match op.kind
    case AtLeastOnce => p.Ack? && p.kind.PubAck? && p.packetId == op.pid
    case ExactlyOnce => p.Ack? && p.kind.PubComp? && p.packetId == op.pid
    case Subscribing => p.SubAck? && p.packetId == op.pid
    case Unsubscribing => p.UnsubAck? && p.packetId == op.pid
  }

  // The history of a connection: packets sent and received, each with the operation it belongs to.

  datatype Event = Sent(packet: Packet, owner: Option<FutureId>) | Received(packet: Packet, owner: Option<FutureId>)

  predicate Releases(e: Event, f: FutureId) {
    e.Sent? && e.owner == Some(f) && e.packet.Ack? && e.packet.kind.PubRel?
  }

  predicate Accepts(e: Event, f: FutureId) {
    e.Received? && e.owner == Some(f) && e.packet.Ack? && e.packet.kind.PubRec? && e.packet.reasonCode < 0x80
  }

  /** Every PUBREL answers a PUBREC below 0x80 of its own flight, with the same identifier, and is the flight's only one. */
  ghost predicate Disciplined(trace: seq<Event>) {
    forall k, f :: 0 <= k < |trace| && Releases(trace[k], f) ==>
      && k > 0 && Accepts(trace[k - 1], f) && trace[k - 1].packet.packetId == trace[k].packet.packetId
      && forall j :: 0 <= j < k ==> !Releases(trace[j], f)
  }

  ghost predicate Unreleased(trace: seq<Event>, f: FutureId) {
    forall k :: 0 <= k < |trace| ==> !Releases(trace[k], f)
  }

  lemma ReleaseOnce(trace: seq<Event>, f: FutureId, got: Packet, sent: Packet)
    requires Disciplined(trace) && Unreleased(trace, f)
    requires Accepts(Received(got, Some(f)), f) && Releases(Sent(sent, Some(f)), f) && got.packetId == sent.packetId
    ensures Disciplined(trace + [Received(got, Some(f)), Sent(sent, Some(f))])
  {
    var t := trace + [Received(got, Some(f)), Sent(sent, Some(f))];
    forall k, g | 0 <= k < |t| && Releases(t[k], g)
      ensures k > 0 && Accepts(t[k - 1], g) && t[k - 1].packet.packetId == t[k].packet.packetId
      ensures forall j :: 0 <= j < k ==> !Releases(t[j], g)
    {
      if k < |trace| {
        assert t[k] == trace[k] && t[k - 1] == trace[k - 1];
        assert forall j :: 0 <= j < k ==> t[j] == trace[j];
      } else {
        assert k == |trace| + 1 && g == f;
        assert forall j :: 0 <= j < |trace| ==> t[j] == trace[j];
      }
    }
  }

  lemma OtherEvent(trace: seq<Event>, e: Event)
    requires Disciplined(trace) && forall f :: !Releases(e, f)
    ensures Disciplined(trace + [e])
    ensures forall f :: Unreleased(trace, f) ==> Unreleased(trace + [e], f)
  {
    var t := trace + [e];
    forall k, f | 0 <= k < |t| && Releases(t[k], f)
      ensures k > 0 && Accepts(t[k - 1], f) && t[k - 1].packet.packetId == t[k].packet.packetId
      ensures forall j :: 0 <= j < k ==> !Releases(t[j], f)
    {
      assert k < |trace| && t[k] == trace[k] && t[k - 1] == trace[k - 1];
      assert forall j :: 0 <= j < k ==> t[j] == trace[j];
    }
  }

  // What always holds of the session maps, as facts about their values.

  /** The identifiers in use are the disjoint union of the keys of the four maps. */
  ghost predicate IdsOwned(qos1: set<int>, qos2: set<int>, subs: set<int>, unsubs: set<int>, inUse: set<int>) {
    && qos1 !! qos2 !! subs !! unsubs
    && inUse == qos1 + qos2 + subs + unsubs
  }

  lemma IdTaken(qos1: set<int>, qos2: set<int>, subs: set<int>, unsubs: set<int>, inUse: set<int>, pid: int)
    requires IdsOwned(qos1, qos2, subs, unsubs, inUse) && pid !in inUse
    ensures IdsOwned(qos1 + {pid}, qos2, subs, unsubs, inUse + {pid})
    ensures IdsOwned(qos1, qos2 + {pid}, subs, unsubs, inUse + {pid})
    ensures IdsOwned(qos1, qos2, subs + {pid}, unsubs, inUse + {pid})
    ensures IdsOwned(qos1, qos2, subs, unsubs + {pid}, inUse + {pid})
  {
  }

  lemma IdGivenBack(qos1: set<int>, qos2: set<int>, subs: set<int>, unsubs: set<int>, inUse: set<int>, pid: int)
    requires IdsOwned(qos1, qos2, subs, unsubs, inUse)
    ensures pid in qos1 ==> IdsOwned(qos1 - {pid}, qos2, subs, unsubs, inUse - {pid})
    ensures pid in qos2 ==> IdsOwned(qos1, qos2 - {pid}, subs, unsubs, inUse - {pid})
    ensures pid in subs ==> IdsOwned(qos1, qos2, subs - {pid}, unsubs, inUse - {pid})
    ensures pid in unsubs ==> IdsOwned(qos1, qos2, subs, unsubs - {pid}, inUse - {pid})
    ensures pid in qos1 + qos2 + subs + unsubs ==> pid in inUse
  {
  }

  ghost predicate Opened(purposes: seq<Operation>, f: FutureId, kind: Kind, pid: int) {
    f < |purposes| && purposes[f] == Operation(kind, pid)
  }

  /** Each map refers to futures created for it, and a result answers the operation it was awaited for. */
  ghost predicate FuturesOwned(qos1: map<int, QoS1Flight>, qos2: map<int, QoS2Flight>, subs: map<int, FutureId>,
                               unsubs: map<int, FutureId>, futures: seq<FutureState>, purposes: seq<Operation>) {
    && |purposes| == |futures|
    && (forall pid :: pid in qos1 ==> Opened(purposes, qos1[pid].future, AtLeastOnce, pid))
    && (forall pid :: pid in qos2 ==> Opened(purposes, qos2[pid].future, ExactlyOnce, pid))
    && (forall pid :: pid in subs ==> Opened(purposes, subs[pid], Subscribing, pid))
    && (forall pid :: pid in unsubs ==> Opened(purposes, unsubs[pid], Unsubscribing, pid))
    && (forall f :: 0 <= f < |futures| && futures[f].Done? ==> Answers(purposes[f], futures[f].packet))
  }

  lemma FutureCreated(qos1: map<int, QoS1Flight>, qos2: map<int, QoS2Flight>, subs: map<int, FutureId>,
                      unsubs: map<int, FutureId>, futures: seq<FutureState>, purposes: seq<Operation>, pid: int, packet: Packet)
    requires FuturesOwned(qos1, qos2, subs, unsubs, futures, purposes)
    ensures var f := |futures|; var now := futures + [Pending];
            && FuturesOwned(qos1[pid := QoS1Flight(packet, f)], qos2, subs, unsubs, now, purposes + [Operation(AtLeastOnce, pid)])
            && FuturesOwned(qos1, qos2[pid := QoS2Flight(packet, PendingPubRec, f)], subs, unsubs, now,
                            purposes + [Operation(ExactlyOnce, pid)])
            && FuturesOwned(qos1, qos2, subs[pid := f], unsubs, now, purposes + [Operation(Subscribing, pid)])
            && FuturesOwned(qos1, qos2, subs, unsubs[pid := f], now, purposes + [Operation(Unsubscribing, pid)])
  {
  }

  lemma FutureDropped(qos1: map<int, QoS1Flight>, qos2: map<int, QoS2Flight>, subs: map<int, FutureId>,
                      unsubs: map<int, FutureId>, futures: seq<FutureState>, purposes: seq<Operation>, pid: int)
    requires FuturesOwned(qos1, qos2, subs, unsubs, futures, purposes)
    ensures FuturesOwned(qos1 - {pid}, qos2, subs, unsubs, futures, purposes)
    ensures FuturesOwned(qos1, qos2 - {pid}, subs, unsubs, futures, purposes)
    ensures FuturesOwned(qos1, qos2, subs - {pid}, unsubs, futures, purposes)
    ensures FuturesOwned(qos1, qos2, subs, unsubs - {pid}, futures, purposes)
    ensures pid in qos2 ==> FuturesOwned(qos1, qos2[pid := qos2[pid].(state := PendingPubComp)], subs, unsubs, futures, purposes)
  {
  }

  lemma FutureMeans(qos1: map<int, QoS1Flight>, qos2: map<int, QoS2Flight>, subs: map<int, FutureId>,
                    unsubs: map<int, FutureId>, futures: seq<FutureState>, purposes: seq<Operation>)
    requires FuturesOwned(qos1, qos2, subs, unsubs, futures, purposes)
    ensures |purposes| == |futures|
    ensures forall pid :: pid in qos1 ==> Opened(purposes, qos1[pid].future, AtLeastOnce, pid) && qos1[pid].future < |futures|
    ensures forall pid :: pid in qos2 ==> Opened(purposes, qos2[pid].future, ExactlyOnce, pid) && qos2[pid].future < |futures|
    ensures forall pid :: pid in subs ==> Opened(purposes, subs[pid], Subscribing, pid) && subs[pid] < |futures|
    ensures forall pid :: pid in unsubs ==> Opened(purposes, unsubs[pid], Unsubscribing, pid) && unsubs[pid] < |futures|
  {
  }

  lemma FutureSettled(qos1: map<int, QoS1Flight>, qos2: map<int, QoS2Flight>, subs: map<int, FutureId>,
                      unsubs: map<int, FutureId>, futures: seq<FutureState>, purposes: seq<Operation>,
                      f: FutureId, outcome: FutureState)
    requires FuturesOwned(qos1, qos2, subs, unsubs, futures, purposes) && f < |futures|
    requires outcome.Done? ==> Answers(purposes[f], outcome.packet)
    ensures FuturesOwned(qos1, qos2, subs, unsubs, futures[f := outcome], purposes)
  {
  }

  /** PUBREL is sent at most once per flight, and a flight still waiting for PUBREC has not had its own. */
  ghost predicate ReleaseDiscipline(qos2: map<int, QoS2Flight>, trace: seq<Event>, created: nat) {
    && Disciplined(trace)
    && (forall f :: f >= created ==> Unreleased(trace, f))
    && (forall pid :: pid in qos2 && qos2[pid].state.PendingPubRec? ==> Unreleased(trace, qos2[pid].future))
  }

  lemma FlightOpened(qos2: map<int, QoS2Flight>, trace: seq<Event>, created: nat, pid: int, flight: QoS2Flight)
    requires ReleaseDiscipline(qos2, trace, created) && flight.future == created
    ensures ReleaseDiscipline(qos2, trace, created + 1) && ReleaseDiscipline(qos2[pid := flight], trace, created + 1)
  {
    hide Disciplined, Unreleased;
  }

  lemma FlightEnded(qos2: map<int, QoS2Flight>, trace: seq<Event>, created: nat, pid: int)
    requires ReleaseDiscipline(qos2, trace, created)
    ensures ReleaseDiscipline(qos2 - {pid}, trace, created)
    ensures pid in qos2 ==> ReleaseDiscipline(qos2[pid := qos2[pid].(state := PendingPubComp)], trace, created)
  {
    hide Disciplined, Unreleased;
  }

  lemma EventLogged(qos2: map<int, QoS2Flight>, trace: seq<Event>, created: nat, e: Event)
    requires ReleaseDiscipline(qos2, trace, created) && forall f :: !Releases(e, f)
    ensures ReleaseDiscipline(qos2, trace + [e], created)
  {
    OtherEvent(trace, e);
    hide Disciplined, Unreleased;
  }

  lemma FlightReleased(qos2: map<int, QoS2Flight>, trace: seq<Event>, created: nat, pid: int, got: Packet, sent: Packet,
                       purposes: seq<Operation>)
    requires ReleaseDiscipline(qos2, trace, created) && pid in qos2 && qos2[pid].state.PendingPubRec?
    requires forall q :: q in qos2 ==> Opened(purposes, qos2[q].future, ExactlyOnce, q)
    requires var f := qos2[pid].future;
             && f < created && Accepts(Received(got, Some(f)), f) && Releases(Sent(sent, Some(f)), f)
             && got.packetId == sent.packetId
    ensures var f := qos2[pid].future;
            ReleaseDiscipline(qos2[pid := qos2[pid].(state := PendingPubComp)],
                              trace + [Received(got, Some(f)), Sent(sent, Some(f))], created)
  {
    var f := qos2[pid].future;
    var t := trace + [Received(got, Some(f)), Sent(sent, Some(f))];
    ReleaseOnce(trace, f, got, sent);
    forall g | g != f && Unreleased(trace, g)
      ensures Unreleased(t, g)
    {
      assert forall k :: 0 <= k < |trace| ==> t[k] == trace[k];
    }
    forall q | q in qos2 && q != pid
      ensures qos2[q].future != f
    {
      assert purposes[qos2[q].future].pid == q && purposes[f].pid == pid;
    }
  }

  // The connection.

  /** The identifier and the future of an operation just started. */
  datatype Ticket = Ticket(pid: int, future: FutureId)

  lemma FreeMeans(pid: int, inUse: set<int>)
    requires LeastFree(pid, inUse)
    ensures pid !in inUse && PacketId(pid)
  {
  }

  /** The part of a session that outlives a step, as a value. */
  datatype View = View(qos1: map<int, QoS1Flight>, qos2: map<int, QoS2Flight>, subs: map<int, FutureId>,
                       unsubs: map<int, FutureId>, futures: seq<FutureState>, purposes: seq<Operation>,
                       trace: seq<Event>, inUse: set<int>)

  ghost predicate Sound(v: View) {
    && IdsOwned(v.qos1.Keys, v.qos2.Keys, v.subs.Keys, v.unsubs.Keys, v.inUse)
    && FuturesOwned(v.qos1, v.qos2, v.subs, v.unsubs, v.futures, v.purposes)
    && ReleaseDiscipline(v.qos2, v.trace, |v.futures|)
  }

  /** A fresh identifier and a fresh future, recorded in any one of the four maps. */
  lemma OperationOpened(v: View, pid: int, p: Packet)
    requires Sound(v) && pid !in v.inUse
    ensures var f := |v.futures|; var now := v.(futures := v.futures + [Pending], inUse := v.inUse + {pid});
            && Sound(now.(qos1 := v.qos1[pid := QoS1Flight(p, f)], purposes := v.purposes + [Operation(AtLeastOnce, pid)]))
            && Sound(now.(qos2 := v.qos2[pid := QoS2Flight(p, PendingPubRec, f)], purposes := v.purposes + [Operation(ExactlyOnce, pid)]))
            && Sound(now.(subs := v.subs[pid := f], purposes := v.purposes + [Operation(Subscribing, pid)]))
            && Sound(now.(unsubs := v.unsubs[pid := f], purposes := v.purposes + [Operation(Unsubscribing, pid)]))
    ensures pid !in v.qos1 && pid !in v.qos2 && pid !in v.subs && pid !in v.unsubs
  {
    var f := |v.futures|;
    IdTaken(v.qos1.Keys, v.qos2.Keys, v.subs.Keys, v.unsubs.Keys, v.inUse, pid);
    NotAKey(v.qos1.Keys, v.qos2.Keys, v.subs.Keys, v.unsubs.Keys, v.inUse, pid);
    FutureCreated(v.qos1, v.qos2, v.subs, v.unsubs, v.futures, v.purposes, pid, p);
    FlightOpened(v.qos2, v.trace, f, pid, QoS2Flight(p, PendingPubRec, f));
    hide IdsOwned, FuturesOwned, ReleaseDiscipline;
    KeysAdded(v.qos1, pid, QoS1Flight(p, f));
    KeysAdded(v.qos2, pid, QoS2Flight(p, PendingPubRec, f));
    KeysAdded(v.subs, pid, f);
    KeysAdded(v.unsubs, pid, f);
  }

  class Session {
    const ids: PacketIdPool
    var inflightQos1: map<int, QoS1Flight>
    var inflightQos2: map<int, QoS2Flight>
    var pendingSubs: map<int, FutureId>
    var pendingUnsubs: map<int, FutureId>
    var futures: seq<FutureState>
    var dead: bool
    var maxPublishQos: QoS
    var retainAvailable: bool
    /** What each future was created for, and everything sent and received. */
    ghost var purposes: seq<Operation>
    ghost var trace: seq<Event>

    ghost function Now(): View
      reads `inflightQos1, `inflightQos2, `pendingSubs, `pendingUnsubs, `futures, `purposes, `trace, ids`inUse
    {
      View(inflightQos1, inflightQos2, pendingSubs, pendingUnsubs, futures, purposes, trace, ids.inUse)
    }

    ghost predicate Valid()
      reads `inflightQos1, `inflightQos2, `pendingSubs, `pendingUnsubs, `futures, `purposes, `trace, ids
    {
      ids.Valid() && Sound(Now())
    }

    /** What CONNACK allows: `maximum_qos` and `retain_available`, or their defaults. */
    constructor (maxPublishQos: QoS, retainAvailable: bool)
      ensures Valid() && fresh(ids) && trace == [] && ids.inUse == {} && !dead
      ensures this.maxPublishQos == maxPublishQos && this.retainAvailable == retainAvailable
    {
      ids := new PacketIdPool();
      inflightQos1, inflightQos2, pendingSubs, pendingUnsubs, futures := map[], map[], map[], map[], [];
      dead, purposes, trace := false, [], [];
      this.maxPublishQos, this.retainAvailable := maxPublishQos, retainAvailable;
    }

    /** `if not future.done(): future.set_...`. */
    method Settle(f: FutureId, outcome: FutureState)
      requires Valid() && f < |futures|
      requires outcome.Done? ==> Answers(purposes[f], outcome.packet)
      modifies this`futures
      ensures Valid() && |futures| == |old(futures)|
      ensures futures == if old(futures)[f].Pending? then old(futures)[f := outcome] else old(futures)
    {
      hide IdsOwned, FuturesOwned, ReleaseDiscipline, Disciplined;
      FutureSettled(inflightQos1, inflightQos2, pendingSubs, pendingUnsubs, futures, purposes, f, outcome);
      if futures[f].Pending? {
        futures := futures[f := outcome];
      }
    }

    ghost method Log(e: Event)
      requires Valid() && forall f :: !Releases(e, f)
      modifies this`trace
      ensures Valid() && trace == old(trace) + [e]
    {
      hide IdsOwned, FuturesOwned, ReleaseDiscipline;
      EventLogged(inflightQos2, trace, |futures|, e);
      trace := trace + [e];
    }

    /** Take an identifier and record a QoS 1 flight under it. */
    method OpenQoS1(packet: Packet) returns (r: Option<Ticket>)
      requires Valid() && packet.Publish?
      modifies `inflightQos1, `futures, `purposes, ids
      ensures Valid()
      ensures r.None? <==> |old(ids.inUse)| >= MAX_ID
      ensures r.None? ==> inflightQos1 == old(inflightQos1) && futures == old(futures) && ids.inUse == old(ids.inUse)
      ensures r.Some? ==>
                var Ticket(pid, future) := r.value;
                && LeastFree(pid, old(ids.inUse)) && ids.inUse == old(ids.inUse) + {pid}
                && future == |old(futures)| && futures == old(futures) + [Pending]
                && inflightQos1 == old(inflightQos1)[pid := QoS1Flight(packet.(publishId := Some(pid)), future)]
    {
      hide Sound, LeastFree, PacketIdPool.Valid;
      var acquired := ids.Acquire();
      if acquired.None? {
        return None;
      }
      var pid, future := acquired.value, |futures|;
      FreeMeans(pid, old(ids.inUse));
      OperationOpened(old(Now()), pid, packet.(publishId := Some(pid)));
      futures, purposes := futures + [Pending], purposes + [Operation(AtLeastOnce, pid)];
      inflightQos1 := inflightQos1[pid := QoS1Flight(packet.(publishId := Some(pid)), future)];
      r := Some(Ticket(pid, future));
    }

    /** Take an identifier and record a QoS 2 flight under it. */
    method OpenQoS2(packet: Packet) returns (r: Option<Ticket>)
      requires Valid() && packet.Publish?
      modifies `inflightQos2, `futures, `purposes, ids
      ensures Valid()
      ensures r.None? <==> |old(ids.inUse)| >= MAX_ID
      ensures r.None? ==> inflightQos2 == old(inflightQos2) && futures == old(futures) && ids.inUse == old(ids.inUse)
      ensures r.Some? ==>
                var Ticket(pid, future) := r.value;
                && LeastFree(pid, old(ids.inUse)) && ids.inUse == old(ids.inUse) + {pid}
                && future == |old(futures)| && futures == old(futures) + [Pending]
                && inflightQos2 == old(inflightQos2)[pid := QoS2Flight(packet.(publishId := Some(pid)), PendingPubRec, future)]
    {
      hide Sound, LeastFree, PacketIdPool.Valid;
      var acquired := ids.Acquire();
      if acquired.None? {
        return None;
      }
      var pid, future := acquired.value, |futures|;
      var flight := QoS2Flight(packet.(publishId := Some(pid)), PendingPubRec, future);
      FreeMeans(pid, old(ids.inUse));
      OperationOpened(old(Now()), pid, packet.(publishId := Some(pid)));
      futures, purposes := futures + [Pending], purposes + [Operation(ExactlyOnce, pid)];
      inflightQos2 := inflightQos2[pid := flight];
      r := Some(Ticket(pid, future));
    }

    /**
     * `sent` says whether encoding and writing the packet succeed. When they fail the flight stays recorded, so its
     * identifier stays taken.
     */
    method Publish(packet: Packet, sent: bool) returns (r: Result<Option<Ticket>, OpError>)
      requires Valid() && packet.Publish?
      modifies `inflightQos1, `inflightQos2, `futures, `purposes, `trace, ids
      ensures Valid()
      ensures r == Err(Disconnected) <==> dead
      ensures r == Err(QoSExceeded) <==> !dead && packet.qos > maxPublishQos
      ensures r == Err(RetainNotAvailable) <==> !dead && packet.qos <= maxPublishQos && packet.retain && !retainAvailable
      ensures r == Err(NoFreeId) <==>
                !dead && packet.qos <= maxPublishQos && (packet.retain ==> retainAvailable) && packet.qos > 0 &&
                |old(ids.inUse)| >= MAX_ID
      ensures r.Ok? ==> sent && (r.value.None? <==> packet.qos == 0)
      ensures r.Err? ==> r.error in {Disconnected, QoSExceeded, RetainNotAvailable, NoFreeId, SendFailed}
      ensures r == Err(SendFailed) ==> !sent && trace == old(trace)
      ensures (r.Err? && r.error != SendFailed) || packet.qos == 0 ==>
                inflightQos1 == old(inflightQos1) && inflightQos2 == old(inflightQos2) && ids.inUse == old(ids.inUse) &&
                futures == old(futures)
      ensures r.Err? || packet.qos == 0 ==> trace == old(trace) + if r.Ok? then [Sent(packet, None)] else []
      ensures r == Err(SendFailed) && packet.qos > 0 ==>
                exists pid :: LeastFree(pid, old(ids.inUse)) && ids.inUse == old(ids.inUse) + {pid} &&
                  futures == old(futures) + [Pending] &&
                  inflightQos1 == (if packet.qos == 1
                                   then old(inflightQos1)[pid := QoS1Flight(packet.(publishId := Some(pid)), |old(futures)|)]
                                   else old(inflightQos1)) &&
                  inflightQos2 == (if packet.qos == 1 then old(inflightQos2)
                                   else old(inflightQos2)[pid :=
                                          QoS2Flight(packet.(publishId := Some(pid)), PendingPubRec, |old(futures)|)])
      ensures r.Ok? && packet.qos > 0 ==>
                var Ticket(pid, future) := r.value.value;
                && LeastFree(pid, old(ids.inUse)) && ids.inUse == old(ids.inUse) + {pid}
                && future == |old(futures)| && futures == old(futures) + [Pending]
                && trace == old(trace) + [Sent(packet.(publishId := Some(pid)), Some(future))]
                && (packet.qos == 1 ==>
                      && inflightQos1 == old(inflightQos1)[pid := QoS1Flight(packet.(publishId := Some(pid)), future)]
                      && inflightQos2 == old(inflightQos2))
                && (packet.qos == 2 ==>
                      && inflightQos2 == old(inflightQos2)[pid := QoS2Flight(packet.(publishId := Some(pid)), PendingPubRec, future)]
                      && inflightQos1 == old(inflightQos1))
    {
      hide IdsOwned, FuturesOwned, ReleaseDiscipline, LeastFree, Valid;
      if dead {
        return Err(Disconnected);
      }
      if packet.qos > maxPublishQos {
        return Err(QoSExceeded);
      }
      if packet.retain && !retainAvailable {
        return Err(RetainNotAvailable);
      }
      if packet.qos == 0 {
        if !sent {
          return Err(SendFailed);
        }
        Log(Sent(packet, None));
        return Ok(None);
      }
      var taken;
      if packet.qos == 1 {
        taken := OpenQoS1(packet);
      } else {
        taken := OpenQoS2(packet);
      }
      if taken.None? {
        return Err(NoFreeId);
      }
      if !sent {
        return Err(SendFailed);
      }
      Log(Sent(packet.(publishId := Some(taken.value.pid)), Some(taken.value.future)));
      r := Ok(taken);
    }

    method HandlePubAck(packet: Packet) returns (r: Result<(), OpError>)
      requires Valid() && packet.Ack? && packet.kind.PubAck?
      modifies `inflightQos1, `futures, ids
      ensures Valid()
      ensures r == if packet.packetId in old(inflightQos1) then Ok(()) else Err(ProtocolError)
      ensures r.Err? ==> inflightQos1 == old(inflightQos1) && futures == old(futures) && ids.inUse == old(ids.inUse)
      ensures r.Ok? ==> var f := old(inflightQos1)[packet.packetId].future;
                        && inflightQos1 == old(inflightQos1) - {packet.packetId}
                        && ids.inUse == old(ids.inUse) - {packet.packetId}
                        && f < |old(futures)|
                        && futures == if old(futures)[f].Pending? then old(futures)[f := Done(packet)] else old(futures)
    {
      if packet.packetId !in inflightQos1 {
        return Err(ProtocolError);
      }
      hide IdsOwned, FuturesOwned, ReleaseDiscipline;
      var pid := packet.packetId;
      FutureMeans(inflightQos1, inflightQos2, pendingSubs, pendingUnsubs, futures, purposes);
      Settle(inflightQos1[pid].future, Done(packet));
      IdGivenBack(inflightQos1.Keys, inflightQos2.Keys, pendingSubs.Keys, pendingUnsubs.Keys, ids.inUse, pid);
      FutureDropped(inflightQos1, inflightQos2, pendingSubs, pendingUnsubs, futures, purposes, pid);
      inflightQos1 := inflightQos1 - {pid};
      ids.Release(pid);
      KeysRemoved(old(inflightQos1), pid);
      r := Ok(());
    }

    /** Forget a QoS 2 flight and give its identifier back. */
    method EndQoS2(pid: int)
      requires Valid() && pid in inflightQos2
      modifies `inflightQos2, ids
      ensures Valid() && inflightQos2 == old(inflightQos2) - {pid} && ids.inUse == old(ids.inUse) - {pid}
    {
      hide IdsOwned, FuturesOwned, ReleaseDiscipline;
      IdGivenBack(inflightQos1.Keys, inflightQos2.Keys, pendingSubs.Keys, pendingUnsubs.Keys, ids.inUse, pid);
      FutureDropped(inflightQos1, inflightQos2, pendingSubs, pendingUnsubs, futures, purposes, pid);
      FlightEnded(inflightQos2, trace, |futures|, pid);
      inflightQos2 := inflightQos2 - {pid};
      ids.Release(pid);
      KeysRemoved(old(inflightQos2), pid);
    }

    method HandlePubRec(packet: Packet, sent: bool) returns (r: Result<(), OpError>)
      requires Valid() && packet.Ack? && packet.kind.PubRec?
      modifies `inflightQos2, `futures, `trace, ids
      ensures Valid()
      ensures r == Err(ProtocolError) <==>
                packet.packetId !in old(inflightQos2) || !old(inflightQos2)[packet.packetId].state.PendingPubRec?
      ensures r == Err(ProtocolError) ==>
                inflightQos2 == old(inflightQos2) && ids.inUse == old(ids.inUse) && trace == old(trace) && futures == old(futures)
      ensures r != Err(ProtocolError) ==>
                var pid := packet.packetId; var flight := old(inflightQos2)[pid]; var got := Received(packet, Some(flight.future));
                if packet.reasonCode >= 0x80 then
                  && r.Ok? && inflightQos2 == old(inflightQos2) - {pid} && ids.inUse == old(ids.inUse) - {pid}
                  && trace == old(trace) + [got]
                  && flight.future < |old(futures)|
                  && futures == (if old(futures)[flight.future].Pending? then old(futures)[flight.future := Failed] else old(futures))
                else
                  && r == (if sent then Ok(()) else Err(SendFailed))
                  && inflightQos2 == old(inflightQos2)[pid := flight.(state := PendingPubComp)]
                  && ids.inUse == old(ids.inUse) && futures == old(futures)
                  && trace == old(trace) + [got] + if sent then [Sent(Ack(PubRel, pid, 0, None), Some(flight.future))] else []
    {
      var pid := packet.packetId;
      if pid !in inflightQos2 || !inflightQos2[pid].state.PendingPubRec? {
        return Err(ProtocolError);
      }
      hide IdsOwned, FuturesOwned, ReleaseDiscipline;
      var flight := inflightQos2[pid];
      FutureMeans(inflightQos1, inflightQos2, pendingSubs, pendingUnsubs, futures, purposes);
      FutureDropped(inflightQos1, inflightQos2, pendingSubs, pendingUnsubs, futures, purposes, pid);
      FlightEnded(inflightQos2, trace, |futures|, pid);
      if packet.reasonCode >= 0x80 {
        Settle(flight.future, Failed);
        EndQoS2(pid);
        Log(Received(packet, Some(flight.future)));
        return Ok(());
      }
      var release := Ack(PubRel, pid, 0, None);
      FlightReleased(inflightQos2, trace, |futures|, pid, packet, release, purposes);
      inflightQos2 := inflightQos2[pid := flight.(state := PendingPubComp)];
      assert inflightQos2.Keys == old(inflightQos2.Keys);
      if !sent {
        Log(Received(packet, Some(flight.future)));
        return Err(SendFailed);
      }
      trace := trace + [Received(packet, Some(flight.future)), Sent(release, Some(flight.future))];
      r := Ok(());
    }

    /** A PUBCOMP ends its flight whatever state it is in. */
    method HandlePubComp(packet: Packet) returns (r: Result<(), OpError>)
      requires Valid() && packet.Ack? && packet.kind.PubComp?
      modifies `inflightQos2, `futures, ids
      ensures Valid()
      ensures r == if packet.packetId in old(inflightQos2) then Ok(()) else Err(ProtocolError)
      ensures r.Err? ==> inflightQos2 == old(inflightQos2) && futures == old(futures) && ids.inUse == old(ids.inUse)
      ensures r.Ok? ==> var f := old(inflightQos2)[packet.packetId].future;
                        && inflightQos2 == old(inflightQos2) - {packet.packetId}
                        && ids.inUse == old(ids.inUse) - {packet.packetId}
                        && f < |old(futures)|
                        && futures == if old(futures)[f].Pending? then old(futures)[f := Done(packet)] else old(futures)
    {
      if packet.packetId !in inflightQos2 {
        return Err(ProtocolError);
      }
      hide IdsOwned, FuturesOwned, ReleaseDiscipline;
      FutureMeans(inflightQos1, inflightQos2, pendingSubs, pendingUnsubs, futures, purposes);
      Settle(inflightQos2[packet.packetId].future, Done(packet));
      EndQoS2(packet.packetId);
      r := Ok(());
    }

    // SUBSCRIBE: from `_send_subscribe` up to its await, and its `finally`.

    method BeginSubscribe(filters: seq<SubscriptionRequest>, properties: Option<SubscribeProperties>, sent: bool)
        returns (r: Result<Ticket, OpError>)
      requires Valid()
      modifies `pendingSubs, `futures, `purposes, `trace, ids
      ensures Valid()
      ensures r == Err(Disconnected) <==> dead
      ensures r == Err(NoFreeId) <==> !dead && |old(ids.inUse)| >= MAX_ID
      ensures r == Err(SendFailed) <==> !dead && |old(ids.inUse)| < MAX_ID && !sent
      ensures r.Err? ==> r.error in {Disconnected, NoFreeId, SendFailed}
      ensures r.Err? ==> pendingSubs == old(pendingSubs) && ids.inUse == old(ids.inUse) && trace == old(trace)
      ensures r.Err? ==> futures == old(futures) + if r.error == SendFailed then [Pending] else []
      ensures r.Ok? ==>
                var Ticket(pid, future) := r.value;
                && sent && LeastFree(pid, old(ids.inUse)) && ids.inUse == old(ids.inUse) + {pid}
                && future == |old(futures)| && futures == old(futures) + [Pending]
                && pendingSubs == old(pendingSubs)[pid := future]
                && trace == old(trace) + [Sent(Packet.Subscribe(pid, filters, properties), Some(future))]
    {
      hide Sound, LeastFree, PacketIdPool.Valid;
      if dead {
        return Err(Disconnected);
      }
      var acquired := ids.Acquire();
      if acquired.None? {
        return Err(NoFreeId);
      }
      var pid, future := acquired.value, |futures|;
      FreeMeans(pid, old(ids.inUse));
      OperationOpened(old(Now()), pid, PingReq);
      futures, purposes := futures + [Pending], purposes + [Operation(Subscribing, pid)];
      pendingSubs := pendingSubs[pid := future];
      if !sent {
        EndSubscribe(pid);
        assert pendingSubs == old(pendingSubs) && ids.inUse == old(ids.inUse);
        return Err(SendFailed);
      }
      Log(Sent(Packet.Subscribe(pid, filters, properties), Some(future)));
      r := Ok(Ticket(pid, future));
    }

    /** Runs when the send fails, the future is settled, a filter is rejected or the task is cancelled. */
    method EndSubscribe(pid: int)
      requires Valid() && pid in pendingSubs
      modifies `pendingSubs, ids
      ensures Valid() && pendingSubs == old(pendingSubs) - {pid} && ids.inUse == old(ids.inUse) - {pid}
    {
      hide IdsOwned, FuturesOwned, ReleaseDiscipline;
      IdGivenBack(inflightQos1.Keys, inflightQos2.Keys, pendingSubs.Keys, pendingUnsubs.Keys, ids.inUse, pid);
      FutureDropped(inflightQos1, inflightQos2, pendingSubs, pendingUnsubs, futures, purposes, pid);
      pendingSubs := pendingSubs - {pid};
      ids.Release(pid);
      KeysRemoved(old(pendingSubs), pid);
    }

    /** A second SUBACK before the waiting task has run finds its future already settled. */
    method HandleSubAck(packet: Packet) returns (r: Result<(), OpError>)
      requires Valid() && packet.SubAck?
      modifies `futures
      ensures Valid()
      ensures r == Err(ProtocolError) <==> packet.packetId !in pendingSubs
      ensures packet.packetId in pendingSubs ==>
                var f := pendingSubs[packet.packetId];
                && f < |old(futures)| && (r.Ok? <==> old(futures)[f].Pending?) && (r.Err? ==> r.error == InvalidState)
                && (r.Ok? ==> futures == old(futures)[f := Done(packet)])
      ensures r.Err? ==> futures == old(futures)
    {
      if packet.packetId !in pendingSubs {
        return Err(ProtocolError);
      }
      hide IdsOwned, FuturesOwned, ReleaseDiscipline;
      FutureMeans(inflightQos1, inflightQos2, pendingSubs, pendingUnsubs, futures, purposes);
      var f := pendingSubs[packet.packetId];
      if !futures[f].Pending? {
        return Err(InvalidState);
      }
      Settle(f, Done(packet));
      r := Ok(());
    }

    // UNSUBSCRIBE, in the same shape.

    method BeginUnsubscribe(filters: seq<Bytes>, sent: bool) returns (r: Result<Ticket, OpError>)
      requires Valid()
      modifies `pendingUnsubs, `futures, `purposes, `trace, ids
      ensures Valid()
      ensures r == Err(Disconnected) <==> dead
      ensures r == Err(NoFreeId) <==> !dead && |old(ids.inUse)| >= MAX_ID
      ensures r == Err(SendFailed) <==> !dead && |old(ids.inUse)| < MAX_ID && !sent
      ensures r.Err? ==> r.error in {Disconnected, NoFreeId, SendFailed}
      ensures r.Err? ==> pendingUnsubs == old(pendingUnsubs) && ids.inUse == old(ids.inUse) && trace == old(trace)
      ensures r.Err? ==> futures == old(futures) + if r.error == SendFailed then [Pending] else []
      ensures r.Ok? ==>
                var Ticket(pid, future) := r.value;
                && sent && LeastFree(pid, old(ids.inUse)) && ids.inUse == old(ids.inUse) + {pid}
                && future == |old(futures)| && futures == old(futures) + [Pending]
                && pendingUnsubs == old(pendingUnsubs)[pid := future]
                && trace == old(trace) + [Sent(Packet.Unsubscribe(pid, filters, None), Some(future))]
    {
      hide Sound, LeastFree, PacketIdPool.Valid;
      if dead {
        return Err(Disconnected);
      }
      var acquired := ids.Acquire();
      if acquired.None? {
        return Err(NoFreeId);
      }
      var pid, future := acquired.value, |futures|;
      FreeMeans(pid, old(ids.inUse));
      OperationOpened(old(Now()), pid, PingReq);
      futures, purposes := futures + [Pending], purposes + [Operation(Unsubscribing, pid)];
      pendingUnsubs := pendingUnsubs[pid := future];
      if !sent {
        EndUnsubscribe(pid);
        assert pendingUnsubs == old(pendingUnsubs) && ids.inUse == old(ids.inUse);
        return Err(SendFailed);
      }
      Log(Sent(Packet.Unsubscribe(pid, filters, None), Some(future)));
      r := Ok(Ticket(pid, future));
    }

    method EndUnsubscribe(pid: int)
      requires Valid() && pid in pendingUnsubs
      modifies `pendingUnsubs, ids
      ensures Valid() && pendingUnsubs == old(pendingUnsubs) - {pid} && ids.inUse == old(ids.inUse) - {pid}
    {
      hide IdsOwned, FuturesOwned, ReleaseDiscipline;
      IdGivenBack(inflightQos1.Keys, inflightQos2.Keys, pendingSubs.Keys, pendingUnsubs.Keys, ids.inUse, pid);
      FutureDropped(inflightQos1, inflightQos2, pendingSubs, pendingUnsubs, futures, purposes, pid);
      pendingUnsubs := pendingUnsubs - {pid};
      ids.Release(pid);
      KeysRemoved(old(pendingUnsubs), pid);
    }

    method HandleUnsubAck(packet: Packet) returns (r: Result<(), OpError>)
      requires Valid() && packet.UnsubAck?
      modifies `futures
      ensures Valid()
      ensures r == Err(ProtocolError) <==> packet.packetId !in pendingUnsubs
      ensures packet.packetId in pendingUnsubs ==>
                var f := pendingUnsubs[packet.packetId];
                && f < |old(futures)| && (r.Ok? <==> old(futures)[f].Pending?) && (r.Err? ==> r.error == InvalidState)
                && (r.Ok? ==> futures == old(futures)[f := Done(packet)])
      ensures r.Err? ==> futures == old(futures)
    {
      if packet.packetId !in pendingUnsubs {
        return Err(ProtocolError);
      }
      hide IdsOwned, FuturesOwned, ReleaseDiscipline;
      FutureMeans(inflightQos1, inflightQos2, pendingSubs, pendingUnsubs, futures, purposes);
      var f := pendingUnsubs[packet.packetId];
      if !futures[f].Pending? {
        return Err(InvalidState);
      }
      Settle(f, Done(packet));
      r := Ok(());
    }

    // Cancellation of a waiting caller, and the loss of the connection.

    /** The flight of a cancelled publish stays: its identifier is freed by the acknowledgement only. */
    method CancelWaiting(f: FutureId)
      requires Valid() && f < |futures|
      modifies `futures
      ensures Valid() && futures == if old(futures)[f].Pending? then old(futures)[f := Cancelled] else old(futures)
    {
      Settle(f, Cancelled);
    }

    /** Fail the pending futures of one map. */
    method FailAll(owners: set<FutureId>)
      requires Valid() && forall f :: f in owners ==> f < |futures|
      modifies `futures
      ensures Valid() && |futures| == |old(futures)|
      ensures forall f :: 0 <= f < |futures| ==>
                futures[f] == if f in owners && old(futures)[f].Pending? then Failed else old(futures)[f]
    {
      hide IdsOwned, FuturesOwned, ReleaseDiscipline, Disciplined;
      var left := owners;
      while left != {}
        invariant Valid() && |futures| == |old(futures)| && left <= owners
        invariant forall f :: 0 <= f < |futures| ==>
                    futures[f] == if f in owners - left && old(futures)[f].Pending? then Failed else old(futures)[f]
        decreases |left|
      {
        var f :| f in left;
        Settle(f, Failed);
        left := left - {f};
      }
    }

    /** The futures of the operations on record. */
    ghost function Awaited(): set<FutureId>
      reads `inflightQos1, `inflightQos2, `pendingSubs, `pendingUnsubs
    {
      (set pid | pid in inflightQos1 :: inflightQos1[pid].future) + (set pid | pid in inflightQos2 :: inflightQos2[pid].future) +
      pendingSubs.Values + pendingUnsubs.Values
    }

    /** `run()` has ended: every operation still waiting fails, and none can start. */
    method ConnectionLost()
      requires Valid()
      modifies `futures, `dead
      ensures Valid() && dead && |futures| == |old(futures)|
      ensures forall pid :: pid in inflightQos1 && old(futures)[inflightQos1[pid].future].Pending? ==>
                futures[inflightQos1[pid].future].Failed?
      ensures forall pid :: pid in inflightQos2 && old(futures)[inflightQos2[pid].future].Pending? ==>
                futures[inflightQos2[pid].future].Failed?
      ensures forall pid :: pid in pendingSubs && old(futures)[pendingSubs[pid]].Pending? ==> futures[pendingSubs[pid]].Failed?
      ensures forall pid :: pid in pendingUnsubs && old(futures)[pendingUnsubs[pid]].Pending? ==> futures[pendingUnsubs[pid]].Failed?
      ensures forall f :: 0 <= f < |futures| && (f !in Awaited() || !old(futures)[f].Pending?) ==> futures[f] == old(futures)[f]
    {
      hide IdsOwned, FuturesOwned, ReleaseDiscipline, Disciplined;
      dead := true;
      FutureMeans(inflightQos1, inflightQos2, pendingSubs, pendingUnsubs, futures, purposes);
      FailAll(pendingSubs.Values);
      FailAll(pendingUnsubs.Values);
      FailAll(set pid | pid in inflightQos1 :: inflightQos1[pid].future);
      FailAll(set pid | pid in inflightQos2 :: inflightQos2[pid].future);
    }
  }

  lemma KeysAdded<T>(m: map<int, T>, pid: int, value: T)
    ensures m[pid := value].Keys == m.Keys + {pid}
  {
  }

  lemma KeysRemoved<T>(m: map<int, T>, pid: int)
    ensures (m - {pid}).Keys == m.Keys - {pid}
  {
  }

  lemma NotAKey(qos1: set<int>, qos2: set<int>, subs: set<int>, unsubs: set<int>, inUse: set<int>, pid: int)
    requires IdsOwned(qos1, qos2, subs, unsubs, inUse) && pid !in inUse
    ensures pid !in qos1 && pid !in qos2 && pid !in subs && pid !in unsubs
  {
  }
}
