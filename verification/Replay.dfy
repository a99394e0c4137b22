/** The buffer that holds unmatched messages of a resumed session until somebody can take them. */
module Replay {
  import opened Util

  /** A message that reached the replay layer; `serial` is its arrival number, which stands for object identity. */
  datatype Publish = Publish(serial: nat, topic: string, identifier: Option<int>, packetId: Option<int>, qos: int)

  /** Messages that go to the same subscription. */
  datatype Route = Route(topic: string, identifier: Option<int>)

  function RouteOf(p: Publish): Route { Route(p.topic, p.identifier) }

  /** The local variables of an open `_deliver_pending`, and the routes it has found nobody free for. */
  datatype Pass = Pass(unmatched: seq<Publish>, delivering: Option<Delivery>, pending: seq<Publish>, blocked: set<Route>)

  /** A message on its way out, to a request or to a subscription. */
  datatype Delivery = Delivery(publish: Publish, claimed: bool)

  /**
   * The buffer's own fields, the open pass, and the history: what was buffered, handed on or passed straight through,
   * and dropped.
   */
  datatype State = State(
    limit: nat,
    publishes: seq<Publish>,
    packetIds: set<int>,
    topics: map<string, int>,
    count: int,
    pass: Option<Pass>,
    arrived: nat,
    buffered: seq<Publish>,
    handed: seq<Delivery>,
    released: seq<Publish>,
    dropped: seq<Publish>)

  function Locals(pass: Option<Pass>): seq<Publish> {
    match pass
    case None => []
    case Some(Pass(unmatched, delivering, pending, _)) =>
      unmatched + (if delivering.Some? then [delivering.value.publish] else []) + pending
  }

  /** Everything the buffer is responsible for, in arrival order. */
  function Held(s: State): seq<Publish> { Locals(s.pass) + s.publishes }

  // Steps.

  /** What the selected recipient of a message is when it arrives. */
  datatype Recipient = NoRecipient | Subscription | Request

  datatype Accepted = Passed | Duplicate | Overflow | Buffered

  function Verdict(s: State, p: Publish, r: Recipient): Accepted {
    if r.Request? then Passed
    else if r.Subscription? && p.topic !in s.topics then Passed
    else if p.packetId.Some? && p.packetId.value in s.packetIds then Duplicate
    else if s.limit > 0 && s.count >= s.limit then Overflow
    else Buffered
  }

  function Bump(topics: map<string, int>, topic: string): map<string, int> {
    topics[topic := (if topic in topics then topics[topic] else 0) + 1]
  }

  function Accepting(s: State, p: Publish, r: Recipient): State {
    match Verdict(s, p, r)
    case Passed =>
      var t := s.(arrived := p.serial + 1);
      if r.Subscription? then t.(released := s.released + [p]) else t
    case Duplicate => s
    case Overflow => s
    case Buffered =>
      s.(publishes := s.publishes + [p], count := s.count + 1, topics := Bump(s.topics, p.topic),
         packetIds := s.packetIds + (if p.packetId.Some? then {p.packetId.value} else {}),
         arrived := p.serial + 1, buffered := s.buffered + [p])
  }

  function BeginPass(s: State): State { s.(pass := Some(Pass([], None, [], {}))) }

  /** `pending = self._publishes; self._publishes = deque()`. */
  function Swap(s: State): State
    requires s.pass.Some?
  {
    s.(pass := Some(s.pass.value.(pending := s.publishes)), publishes := [])
  }

  /** What a pass finds for one message: nobody, a full queue, a waiting request, or a queue with room. */
  datatype Finding = Nobody | Full | Claimed | Room

  function Turn(s: State, f: Finding): State
    requires s.pass.Some? && s.pass.value.pending != []
  {
    var pass := s.pass.value;
    var p, rest := pass.pending[0], pass.pending[1..];
    var now := if f.Nobody? || f.Full? then
                 Pass(pass.unmatched + [p], None, rest, pass.blocked + {RouteOf(p)})
               else Pass(pass.unmatched, Some(Delivery(p, f.Claimed?)), rest, pass.blocked);
    s.(pass := Some(now))
  }

  /** The `finally` block: whatever was not handed on goes back, in order. */
  function Close(s: State): State
    requires s.pass.Some?
  {
    var pass := s.pass.value;
    s.(publishes := pass.unmatched + pass.pending + s.publishes, pass := None)
  }

  /** `_discard` for a message whose topic is on record; the counters drop by one. */
  function Discard(s: State, p: Publish): State
    requires p.topic in s.topics
  {
    var left := s.topics[p.topic] - 1;
    s.(count := s.count - 1,
       topics := if left != 0 then s.topics[p.topic := left] else s.topics - {p.topic},
       packetIds := s.packetIds - (if p.packetId.Some? then {p.packetId.value} else {}))
  }

  predicate Delivering(s: State) { s.pass.Some? && s.pass.value.delivering.Some? }

  /** A delivery returns. A topic that is not on record makes `_discard` raise KeyError, which ends the pass. */
  function Delivered(s: State): State
    requires Delivering(s)
  {
    var d := s.pass.value.delivering.value;
    var out := s.(pass := Some(s.pass.value.(delivering := None)), handed := s.handed + [d],
                  released := if d.claimed then s.released else s.released + [d.publish]);
    if d.publish.topic in s.topics then Discard(out, d.publish) else Close(out.(count := out.count - 1))
  }

  /** A delivery raises: its message goes back behind the unmatched ones and the pass ends. */
  function Failed(s: State): State
    requires Delivering(s)
  {
    var pass := s.pass.value;
    Close(s.(pass := Some(pass.(unmatched := pass.unmatched + [pass.delivering.value.publish], delivering := None))))
  }

  function Empty(s: State): State {
    s.(publishes := [], packetIds := {}, topics := map[], count := 0, dropped := s.dropped + s.publishes)
  }

  datatype Step =
    | AcceptStep(publish: Publish, recipient: Recipient)
    | BeginStep
    | SwapStep
    | TurnStep(finding: Finding)
    | DeliveredStep
    | FailedStep
    | EndStep
    | DropStep        // expiry, after its pass
    | ClearStep       // the connection is gone, or a new session begins

  /** The delivery lock lets one pass run at a time, and expiry drops only after its pass. */
  predicate Enabled(s: State, e: Step) {
    match e
    case AcceptStep(p, _) => p.serial >= s.arrived
    case BeginStep => s.pass.None?
    case SwapStep => s.pass.Some? && s.pass.value.delivering.None? && s.pass.value.pending == [] && s.publishes != []
    case TurnStep(_) => s.pass.Some? && s.pass.value.delivering.None? && s.pass.value.pending != []
    case DeliveredStep => Delivering(s)
    case FailedStep => Delivering(s)
    case EndStep => s.pass.Some? && s.pass.value.delivering.None? && s.pass.value.pending == [] && s.publishes == []
    case DropStep => s.pass.None?
    case ClearStep => true
  }

  function Apply(s: State, e: Step): State
    requires Enabled(s, e)
  {
    match e
    case AcceptStep(p, r) => Accepting(s, p, r)
    case BeginStep => BeginPass(s)
    case SwapStep => Swap(s)
    case TurnStep(f) => Turn(s, f)
    case DeliveredStep => Delivered(s)
    case FailedStep => Failed(s)
    case EndStep => Close(s)
    case DropStep => Empty(s)
    case ClearStep => Empty(s)
  }

  // The counters.

  function TopicsOf(held: seq<Publish>): seq<string> {
    seq(|held|, i requires 0 <= i < |held| => held[i].topic)
  }

  function IdsOf(held: seq<Publish>): set<int> {
    set p | p in held && p.packetId.Some? :: p.packetId.value
  }

  ghost predicate DistinctIds(held: seq<Publish>) {
    forall i, j :: 0 <= i < j < |held| && held[i].packetId.Some? ==> held[i].packetId != held[j].packetId
  }

  function Count(topics: map<string, int>, t: string): int { if t in topics then topics[t] else 0 }

  ghost predicate TopicsAgree(topics: map<string, int>, held: seq<Publish>) {
    && (forall t :: Count(topics, t) == multiset(TopicsOf(held))[t])
    && (forall t :: t in topics ==> topics[t] > 0)
  }

  /** `_message_count`, `_topics` and `_packet_ids` say exactly what is held, and a positive limit is kept. */
  ghost predicate Agree(limit: nat, count: int, topics: map<string, int>, packetIds: set<int>, held: seq<Publish>) {
    && count == |held| && packetIds == IdsOf(held) && TopicsAgree(topics, held) && DistinctIds(held)
    && (limit > 0 ==> |held| <= limit)
  }

  ghost predicate Sound(s: State) { Agree(s.limit, s.count, s.topics, s.packetIds, Held(s)) }

  lemma TopicsAppend(a: seq<Publish>, b: seq<Publish>)
    ensures multiset(TopicsOf(a + b)) == multiset(TopicsOf(a)) + multiset(TopicsOf(b))
    ensures IdsOf(a + b) == IdsOf(a) + IdsOf(b)
  {
    assert TopicsOf(a + b) == TopicsOf(a) + TopicsOf(b);
  }

  lemma OneTopic(p: Publish)
    ensures multiset(TopicsOf([p])) == multiset{p.topic}
    ensures IdsOf([p]) == if p.packetId.Some? then {p.packetId.value} else {}
  {
    assert TopicsOf([p]) == [p.topic];
  }

  /** Passes move messages about without changing what is held, or the order. */
  lemma MovesKeepHeld(s: State, e: Step)
    requires Enabled(s, e)
    requires e.BeginStep? || e.SwapStep? || e.TurnStep? || e.FailedStep? || e.EndStep?
    ensures var z := Apply(s, e);
            && Held(z) == Held(s) && z == s.(publishes := z.publishes, pass := z.pass)
  {
    if e.TurnStep? {
      var pending := s.pass.value.pending;
      assert pending == [pending[0]] + pending[1..];
    }
  }

  lemma HasId(held: seq<Publish>, q: Publish)
    requires q in held && q.packetId.Some?
    ensures q.packetId.value in IdsOf(held)
  {
  }

  lemma TopicAdded(topics: map<string, int>, before: multiset<string>, after: multiset<string>, t: string)
    requires after == before + multiset{t}
    requires (forall u :: Count(topics, u) == before[u]) && forall u :: u in topics ==> topics[u] > 0
    ensures (forall u :: Count(Bump(topics, t), u) == after[u]) && forall u :: u in Bump(topics, t) ==> Bump(topics, t)[u] > 0
  {
    assert Count(topics, t) == before[t];
  }

  lemma NewIdDistinct(held: seq<Publish>, p: Publish)
    requires DistinctIds(held) && (p.packetId.Some? ==> p.packetId.value !in IdsOf(held))
    ensures DistinctIds(held + [p])
  {
    forall i | 0 <= i < |held| && held[i].packetId.Some?
      ensures held[i].packetId != p.packetId
    {
      HasId(held, held[i]);
    }
    hide IdsOf;
  }

  lemma AppendedAgrees(limit: nat, count: int, topics: map<string, int>, packetIds: set<int>, held: seq<Publish>, p: Publish)
    requires Agree(limit, count, topics, packetIds, held) && (limit > 0 ==> count < limit)
    requires p.packetId.Some? ==> p.packetId.value !in packetIds
    ensures Agree(limit, count + 1, Bump(topics, p.topic),
                  packetIds + (if p.packetId.Some? then {p.packetId.value} else {}), held + [p])
  {
    TopicsAppend(held, [p]);
    OneTopic(p);
    NewIdDistinct(held, p);
    TopicAdded(topics, multiset(TopicsOf(held)), multiset(TopicsOf(held + [p])), p.topic);
    hide TopicsOf, IdsOf, DistinctIds, Bump, Count;
  }

  lemma BufferedAgrees(s: State, p: Publish, r: Recipient)
    requires Sound(s) && Verdict(s, p, r).Buffered?
    ensures Sound(Accepting(s, p, r)) && Held(Accepting(s, p, r)) == Held(s) + [p]
  {
    AcceptHeld(s, p, r);
    AgreeMeans(s);
    AppendedAgrees(s.limit, s.count, s.topics, s.packetIds, Held(s), p);
    hide Held, Agree, Bump;
  }

  lemma AgreeMeans(s: State)
    requires Sound(s)
    ensures s.count == |Held(s)|
  {
  }

  /** Taking one message out of the middle. */
  lemma RemovedAgrees(limit: nat, count: int, topics: map<string, int>, packetIds: set<int>,
                      a: seq<Publish>, p: Publish, b: seq<Publish>)
    requires Agree(limit, count, topics, packetIds, a + [p] + b)
    ensures p.topic in topics
    ensures var left := topics[p.topic] - 1;
            Agree(limit, count - 1, if left != 0 then topics[p.topic := left] else topics - {p.topic},
                  packetIds - (if p.packetId.Some? then {p.packetId.value} else {}), a + b)
  {
    TopicsAppend(a + [p], b);
    TopicsAppend(a, [p]);
    TopicsAppend(a, b);
    OneTopic(p);
    assert Count(topics, p.topic) == multiset(TopicsOf(a + [p] + b))[p.topic];
    RemovedIds(a, p, b);
    RemovedDistinct(a, p, b);
    var held := a + [p] + b;
    TopicRemoved(topics, multiset(TopicsOf(held)), multiset(TopicsOf(a + b)), p.topic);
    hide TopicsOf, IdsOf, DistinctIds, Count;
  }

  lemma RemovedDistinct(a: seq<Publish>, p: Publish, b: seq<Publish>)
    requires DistinctIds(a + [p] + b)
    ensures DistinctIds(a + b)
  {
    AroundMiddle(a, p, b);
    var held, rest := a + [p] + b, a + b;
    forall i, j | 0 <= i < j < |rest| && rest[i].packetId.Some?
      ensures rest[i].packetId != rest[j].packetId
    {
      var x, y := if i < |a| then i else i + 1, if j < |a| then j else j + 1;
      assert held[x].packetId != held[y].packetId;
    }
  }

  lemma TopicRemoved(topics: map<string, int>, before: multiset<string>, after: multiset<string>, t: string)
    requires before == after + multiset{t}
    requires (forall u :: Count(topics, u) == before[u]) && forall u :: u in topics ==> topics[u] > 0
    ensures t in topics
    ensures var left := topics[t] - 1;
            var now := if left != 0 then topics[t := left] else topics - {t};
            (forall u :: Count(now, u) == after[u]) && forall u :: u in now ==> now[u] > 0
  {
    assert Count(topics, t) == before[t];
    var left := topics[t] - 1;
    var now := if left != 0 then topics[t := left] else topics - {t};
    forall u: string
      ensures Count(now, u) == after[u]
    {
      assert Count(topics, u) == before[u];
    }
  }

  lemma RemovedIds(a: seq<Publish>, p: Publish, b: seq<Publish>)
    requires DistinctIds(a + [p] + b)
    ensures IdsOf(a + b) == IdsOf(a + [p] + b) - (if p.packetId.Some? then {p.packetId.value} else {})
  {
    var held := a + [p] + b;
    assert held[|a|] == p;
    forall q | q in a + b
      ensures q in held && (p.packetId.Some? ==> q.packetId != p.packetId)
    {
      var i :| 0 <= i < |a + b| && (a + b)[i] == q;
      var x := if i < |a| then i else i + 1;
      assert held[x] == q;
    }
    forall q | q in held && q != p
      ensures q in a + b
    {
    }
  }

  /** What is held around a message on its way out. */
  lemma AroundDelivery(s: State)
    requires Delivering(s)
    ensures var pass := s.pass.value; var p := pass.delivering.value.publish; var b := pass.pending + s.publishes;
            Held(s) == pass.unmatched + [p] + b
  {
  }

  lemma HeldAfterDelivery(s: State)
    requires Delivering(s)
    ensures Held(Delivered(s)) == s.pass.value.unmatched + (s.pass.value.pending + s.publishes)
  {
  }

  lemma DeliveredAgrees(s: State)
    requires Sound(s) && Delivering(s)
    ensures Sound(Delivered(s)) && s.pass.value.delivering.value.publish.topic in s.topics
  {
    var pass := s.pass.value;
    AroundDelivery(s);
    HeldAfterDelivery(s);
    RemovedAgrees(s.limit, s.count, s.topics, s.packetIds, pass.unmatched, pass.delivering.value.publish, pass.pending + s.publishes);
    hide Held, Locals, Agree;
  }

  /**
   * Clearing keeps the counters in agreement exactly when no open pass still has messages in its hands; the source
   * clears without looking.
   */
  lemma ClearAgrees(s: State)
    ensures Sound(Empty(s)) <==> Locals(s.pass) == []
  {
    assert Held(Empty(s)) == Locals(s.pass);
    if Locals(s.pass) == [] {
      assert TopicsOf([]) == [];
    }
  }

  /** A connection lost while a message is being handed on: the pass then fails on a topic that is not on record. */
  lemma ClearDuringPass()
    ensures var p := Publish(0, "t", None, Some(1), 1);
            var s0 := State(0, [], {}, map[], 0, None, 0, [], [], [], []);
            var s1 := Accepting(s0, p, NoRecipient);
            var s2 := Turn(Swap(BeginPass(s1)), Room);
            Sound(s2) && Delivering(s2) && !Sound(Empty(s2)) && p.topic !in Empty(s2).topics && Delivered(Empty(s2)).count == -1
  {
    var p := Publish(0, "t", None, Some(1), 1);
    var s0 := State(0, [], {}, map[], 0, None, 0, [], [], [], []);
    ClearAgrees(s0);
    assert Empty(s0) == s0;
    BufferedAgrees(s0, p, NoRecipient);
    var s1 := Accepting(s0, p, NoRecipient);
    MovesKeepHeld(s1, BeginStep);
    MovesKeepHeld(BeginPass(s1), SwapStep);
    var s3 := Swap(BeginPass(s1));
    MovesKeepHeld(s3, TurnStep(Room));
    ClearAgrees(Turn(s3, Room));
  }

  // Conservation.

  function Out(handed: seq<Delivery>): seq<Publish> {
    seq(|handed|, i requires 0 <= i < |handed| => handed[i].publish)
  }

  /** Everything ever buffered is still held, was handed on, or was dropped, and only once. */
  ghost predicate Conserved(s: State) {
    multiset(s.buffered) == multiset(Held(s)) + multiset(Out(s.handed)) + multiset(s.dropped)
  }

  lemma DeliveryConserves(s: State)
    requires Conserved(s) && Delivering(s)
    ensures Conserved(Delivered(s))
  {
    AroundDelivery(s);
    HeldAfterDelivery(s);
    var z := Delivered(s);
    assert Out(z.handed) == Out(s.handed) + [s.pass.value.delivering.value.publish];
    hide Held, Out;
  }

  lemma EmptyConserves(s: State)
    requires Conserved(s)
    ensures Conserved(Empty(s))
  {
    assert Held(s) == Locals(s.pass) + s.publishes && Held(Empty(s)) == Locals(s.pass);
    hide Held, Out, Locals;
  }

  lemma AcceptConserves(s: State, p: Publish, r: Recipient)
    requires Conserved(s)
    ensures Conserved(Accepting(s, p, r))
  {
    var z := Accepting(s, p, r);
    AcceptHeld(s, p, r);
    hide Held, Out;
  }

  lemma AcceptHeld(s: State, p: Publish, r: Recipient)
    ensures Held(Accepting(s, p, r)) == Held(s) + if Verdict(s, p, r).Buffered? then [p] else []
  {
    assert Verdict(s, p, r).Buffered? ==> Locals(s.pass) + (s.publishes + [p]) == Locals(s.pass) + s.publishes + [p];
  }

  lemma StepConserves(s: State, e: Step)
    requires Conserved(s) && Enabled(s, e)
    ensures Conserved(Apply(s, e))
  {
    match e
    case AcceptStep(p, r) => AcceptConserves(s, p, r);
    case DeliveredStep => DeliveryConserves(s);
    case DropStep => EmptyConserves(s);
    case ClearStep => EmptyConserves(s);
    case _ =>
      MovesKeepHeld(s, e);
      hide Held, Apply;
  }

  // Arrival order.

  ghost predicate Ascending(held: seq<Publish>, arrived: nat) {
    && (forall i, j :: 0 <= i < j < |held| ==> held[i].serial < held[j].serial)
    && (forall i :: 0 <= i < |held| ==> held[i].serial < arrived)
  }

  /** Released messages of one route are in arrival order, and none came after one of its route still held. */
  ghost predicate InOrder(released: seq<Publish>, held: seq<Publish>, arrived: nat) {
    && (forall i, j :: 0 <= i < j < |released| && RouteOf(released[i]) == RouteOf(released[j]) ==>
          released[i].serial < released[j].serial)
    && (forall i, j :: 0 <= i < |released| && 0 <= j < |held| && RouteOf(released[i]) == RouteOf(held[j]) ==>
          released[i].serial < held[j].serial)
    && (forall i :: 0 <= i < |released| ==> released[i].serial < arrived)
  }

  /** In an open pass, what could not go is on a blocked route, and what is going is not. */
  ghost predicate BlockedKnown(pass: Option<Pass>) {
    pass.Some? ==>
      && (forall i :: 0 <= i < |pass.value.unmatched| ==> RouteOf(pass.value.unmatched[i]) in pass.value.blocked)
      && (pass.value.delivering.Some? && !pass.value.delivering.value.claimed ==>
            RouteOf(pass.value.delivering.value.publish) !in pass.value.blocked)
  }

  /** Subscriptions and queues change only between passes: a route blocked in a pass stays blocked in it. */
  predicate Steady(s: State, e: Step)
    requires Enabled(s, e)
  {
    e == TurnStep(Room) ==> RouteOf(s.pass.value.pending[0]) !in s.pass.value.blocked
  }

  lemma AroundMiddle(a: seq<Publish>, p: Publish, b: seq<Publish>)
    ensures (a + [p] + b)[|a|] == p
    ensures forall i :: 0 <= i < |a + b| ==> (a + b)[i] == (a + [p] + b)[if i < |a| then i else i + 1]
  {
  }

  lemma AscendingMiddle(a: seq<Publish>, p: Publish, b: seq<Publish>, arrived: nat)
    requires Ascending(a + [p] + b, arrived)
    ensures Ascending(a + b, arrived)
    ensures forall i :: 0 <= i < |a + b| ==> if i < |a| then (a + b)[i].serial < p.serial else p.serial < (a + b)[i].serial
  {
    AroundMiddle(a, p, b);
    var held, rest := a + [p] + b, a + b;
    forall i, j | 0 <= i < j < |rest|
      ensures rest[i].serial < rest[j].serial
    {
      var x, y := if i < |a| then i else i + 1, if j < |a| then j else j + 1;
      assert held[x].serial < held[y].serial;
    }
  }

  /** Releasing a message with nothing of its route held before it. */
  lemma ReleaseKeepsOrder(released: seq<Publish>, a: seq<Publish>, p: Publish, b: seq<Publish>, arrived: nat)
    requires Ascending(a + [p] + b, arrived) && InOrder(released, a + [p] + b, arrived)
    requires forall i :: 0 <= i < |a| ==> RouteOf(a[i]) != RouteOf(p)
    ensures InOrder(released + [p], a + b, arrived)
  {
    AscendingMiddle(a, p, b, arrived);
    InOrderMiddle(released, a, p, b, arrived);
    AroundMiddle(a, p, b);
    var rest, now := a + b, released + [p];
    assert forall i :: 0 <= i < |a| ==> rest[i] == a[i];
    forall i | 0 <= i < |rest| && RouteOf(rest[i]) == RouteOf(p)
      ensures p.serial < rest[i].serial
    {
    }
    forall i | 0 <= i < |released| && RouteOf(released[i]) == RouteOf(p)
      ensures released[i].serial < p.serial
    {
    }
    assert p.serial < arrived;
    hide RouteOf, Ascending;
  }

  lemma InOrderMiddle(released: seq<Publish>, a: seq<Publish>, p: Publish, b: seq<Publish>, arrived: nat)
    requires InOrder(released, a + [p] + b, arrived)
    ensures InOrder(released, a + b, arrived)
  {
    AroundMiddle(a, p, b);
    var held, rest := a + [p] + b, a + b;
    forall i, j | 0 <= i < |released| && 0 <= j < |rest| && RouteOf(released[i]) == RouteOf(rest[j])
      ensures released[i].serial < rest[j].serial
    {
      assert rest[j] == held[if j < |a| then j else j + 1];
    }
    hide RouteOf;
  }

  /** The message going to a subscription leaves one of its route behind in the pass. */
  predicate Overtakes(s: State, e: Step) {
    e.DeliveredStep? && Delivering(s) && !s.pass.value.delivering.value.claimed &&
    exists i :: 0 <= i < |s.pass.value.unmatched| &&
      RouteOf(s.pass.value.unmatched[i]) == RouteOf(s.pass.value.delivering.value.publish)
  }

  /** What has left is in arrival order, route by route, and so will be what is left. */
  ghost predicate InLine(s: State) { Ascending(Held(s), s.arrived) && InOrder(s.released, Held(s), s.arrived) }

  /** A release keeps the order if and only if nothing of its route is held before it. */
  lemma ReleaseOrderExactly(released: seq<Publish>, a: seq<Publish>, p: Publish, b: seq<Publish>, arrived: nat)
    requires Ascending(a + [p] + b, arrived) && InOrder(released, a + [p] + b, arrived)
    ensures InOrder(released + [p], a + b, arrived) <==> forall i :: 0 <= i < |a| ==> RouteOf(a[i]) != RouteOf(p)
  {
    if i :| 0 <= i < |a| && RouteOf(a[i]) == RouteOf(p) {
      AscendingMiddle(a, p, b, arrived);
      assert (a + b)[i] == a[i] && (released + [p])[|released|] == p;
    } else {
      ReleaseKeepsOrder(released, a, p, b, arrived);
    }
    hide RouteOf, Ascending;
  }

  /** A delivery to a subscription keeps arrival order if and only if no unmatched message of its pass has its route. */
  lemma DeliveryOrderExactly(s: State)
    requires Delivering(s) && InLine(s)
    ensures InLine(Delivered(s)) <==> !Overtakes(s, DeliveredStep)
  {
    var pass := s.pass.value;
    var d := pass.delivering.value;
    var b := pass.pending + s.publishes;
    AroundDelivery(s);
    HeldAfterDelivery(s);
    AscendingMiddle(pass.unmatched, d.publish, b, s.arrived);
    InOrderMiddle(s.released, pass.unmatched, d.publish, b, s.arrived);
    ReleaseOrderExactly(s.released, pass.unmatched, d.publish, b, s.arrived);
    hide Held, Ascending, InOrder, RouteOf;
  }

  /** A message may pass straight through to a subscription only while nothing on its topic is held. */
  lemma PassedOrdered(s: State, p: Publish)
    requires Sound(s) && InLine(s) && p.serial >= s.arrived && p.topic !in s.topics
    ensures InOrder(s.released + [p], Held(s), p.serial + 1)
  {
    var held := Held(s);
    forall i | 0 <= i < |held|
      ensures held[i].topic != p.topic
    {
      assert TopicsOf(held)[i] == held[i].topic;
      assert held[i].topic in multiset(TopicsOf(held));
      assert Count(s.topics, held[i].topic) > 0;
    }
    hide Held, TopicsAgree, DistinctIds;
  }

  lemma AcceptOrdered(s: State, p: Publish, r: Recipient)
    requires Sound(s) && InLine(s) && p.serial >= s.arrived
    ensures InLine(Accepting(s, p, r)) && Accepting(s, p, r).pass == s.pass
  {
    AcceptHeld(s, p, r);
    var v := Verdict(s, p, r);
    if v.Passed? && r.Subscription? {
      PassedOrdered(s, p);
    }
    hide Held, RouteOf, Sound;
  }

  lemma EmptyOrdered(s: State)
    requires InLine(s)
    ensures InLine(Empty(s)) && Empty(s).pass == s.pass
  {
    assert Held(s) == Locals(s.pass) + s.publishes && Held(Empty(s)) == Locals(s.pass);
    var held := Held(s);
    assert forall i :: 0 <= i < |Locals(s.pass)| ==> Locals(s.pass)[i] == held[i];
    hide Held, Locals, RouteOf;
  }

  /** A step keeps arrival order if and only if it is no delivery that overtakes. */
  lemma StepOrderExactly(s: State, e: Step)
    requires Sound(s) && InLine(s) && Enabled(s, e)
    ensures InLine(Apply(s, e)) <==> !Overtakes(s, e)
  {
    hide Sound, InLine;
    match e
    case AcceptStep(p, r) => AcceptOrdered(s, p, r);
    case DeliveredStep => DeliveryOrderExactly(s);
    case DropStep => EmptyOrdered(s);
    case ClearStep => EmptyOrdered(s);
    case _ =>
      MovesKeepHeld(s, e);
      SameLine(s, Apply(s, e));
  }

  lemma SameLine(s: State, z: State)
    requires Held(z) == Held(s) && z.released == s.released && z.arrived == s.arrived
    ensures InLine(z) == InLine(s)
  {
    hide Held, Ascending, InOrder;
  }

  /** While a route found blocked stays blocked for the rest of its pass, nothing overtakes. */
  lemma SteadyNeverOvertakes(s: State, e: Step)
    requires BlockedKnown(s.pass) && Enabled(s, e) && Steady(s, e)
    ensures BlockedKnown(Apply(s, e).pass) && !Overtakes(s, e)
  {
    hide RouteOf, Accepting;
    if e.AcceptStep? {
      AcceptPass(s, e.publish, e.recipient);
    }
  }

  lemma AcceptPass(s: State, p: Publish, r: Recipient)
    ensures Accepting(s, p, r).pass == s.pass
  {
  }

  lemma AcceptAgrees(s: State, p: Publish, r: Recipient)
    requires Sound(s)
    ensures Sound(Accepting(s, p, r))
  {
    if Verdict(s, p, r).Buffered? {
      BufferedAgrees(s, p, r);
    } else {
      AcceptHeld(s, p, r);
      hide Agree, Held;
    }
  }

  /** The buffer is cleared, if at all, while no open pass has messages in its hands. */
  predicate QuietClear(s: State, e: Step) { e.ClearStep? ==> Locals(s.pass) == [] }

  /** A step keeps the counters right if and only if it is no clearing in the middle of a pass. */
  lemma StepAgrees(s: State, e: Step)
    requires Sound(s) && Enabled(s, e)
    ensures Sound(Apply(s, e)) <==> QuietClear(s, e)
  {
    match e
    case AcceptStep(p, r) => AcceptAgrees(s, p, r);
    case DeliveredStep => DeliveredAgrees(s);
    case DropStep => ClearAgrees(s);
    case ClearStep => ClearAgrees(s);
    case _ =>
      MovesKeepHeld(s, e);
      hide Held, Agree;
  }

  // Whole runs.

  function Initial(limit: nat): State {
    State(limit, [], {}, map[], 0, None, 0, [], [], [], [])
  }

  ghost predicate Runs(s: State, steps: seq<Step>, end: State)
    decreases |steps|
  {
    if steps == [] then s == end else Enabled(s, steps[0]) && Runs(Apply(s, steps[0]), steps[1..], end)
  }

  ghost predicate QuietClears(s: State, steps: seq<Step>)
    decreases |steps|
  {
    steps != [] && Enabled(s, steps[0]) ==> QuietClear(s, steps[0]) && QuietClears(Apply(s, steps[0]), steps[1..])
  }

  ghost predicate SteadyRun(s: State, steps: seq<Step>)
    decreases |steps|
  {
    steps != [] && Enabled(s, steps[0]) ==> Steady(s, steps[0]) && SteadyRun(Apply(s, steps[0]), steps[1..])
  }

  ghost predicate NeverOvertakes(s: State, steps: seq<Step>)
    decreases |steps|
  {
    steps != [] && Enabled(s, steps[0]) ==> !Overtakes(s, steps[0]) && NeverOvertakes(Apply(s, steps[0]), steps[1..])
  }

  ghost predicate AlwaysSound(s: State, steps: seq<Step>)
    decreases |steps|
  {
    Sound(s) && (steps != [] && Enabled(s, steps[0]) ==> AlwaysSound(Apply(s, steps[0]), steps[1..]))
  }

  ghost predicate AlwaysInLine(s: State, steps: seq<Step>)
    decreases |steps|
  {
    InLine(s) && (steps != [] && Enabled(s, steps[0]) ==> AlwaysInLine(Apply(s, steps[0]), steps[1..]))
  }

  lemma {:induction false} RunsConserve(s: State, steps: seq<Step>, end: State)
    requires Conserved(s) && Runs(s, steps, end)
    ensures Conserved(end)
    decreases |steps|
  {
    hide Conserved, Apply, Enabled;
    if steps != [] {
      StepConserves(s, steps[0]);
      RunsConserve(Apply(s, steps[0]), steps[1..], end);
    }
  }

  lemma {:induction false} RunsAgree(s: State, steps: seq<Step>, end: State)
    requires Sound(s) && Runs(s, steps, end)
    ensures AlwaysSound(s, steps) <==> QuietClears(s, steps)
    ensures QuietClears(s, steps) ==> Sound(end)
    decreases |steps|
  {
    hide Sound, Apply, Enabled, QuietClear;
    if steps != [] {
      StepAgrees(s, steps[0]);
      if QuietClear(s, steps[0]) {
        RunsAgree(Apply(s, steps[0]), steps[1..], end);
      } else {
        NotAlwaysSound(Apply(s, steps[0]), steps[1..]);
      }
    }
  }

  lemma NotAlwaysSound(s: State, steps: seq<Step>)
    requires !Sound(s)
    ensures !AlwaysSound(s, steps)
  {
    hide Sound, Apply, Enabled;
  }

  lemma {:induction false} RunsKeepOrder(s: State, steps: seq<Step>, end: State)
    requires Sound(s) && InLine(s) && Runs(s, steps, end) && QuietClears(s, steps)
    ensures AlwaysInLine(s, steps) <==> NeverOvertakes(s, steps)
    ensures NeverOvertakes(s, steps) ==> InLine(end)
    decreases |steps|
  {
    hide Sound, InLine, Apply, Enabled, QuietClear, Overtakes;
    if steps != [] {
      StepAgrees(s, steps[0]);
      StepOrderExactly(s, steps[0]);
      if Overtakes(s, steps[0]) {
        NotAlwaysInLine(Apply(s, steps[0]), steps[1..]);
      } else {
        RunsKeepOrder(Apply(s, steps[0]), steps[1..], end);
      }
    }
  }

  lemma NotAlwaysInLine(s: State, steps: seq<Step>)
    requires !InLine(s)
    ensures !AlwaysInLine(s, steps)
  {
    hide InLine, Apply, Enabled;
  }

  lemma {:induction false} SteadyRunsOn(s: State, steps: seq<Step>, end: State)
    requires BlockedKnown(s.pass) && Runs(s, steps, end) && SteadyRun(s, steps)
    ensures NeverOvertakes(s, steps)
    decreases |steps|
  {
    hide BlockedKnown, Apply, Enabled, Overtakes, Steady;
    if steps != [] {
      SteadyNeverOvertakes(s, steps[0]);
      SteadyRunsOn(Apply(s, steps[0]), steps[1..], end);
    }
  }

  lemma InitialSound(limit: nat)
    ensures Sound(Initial(limit)) && Conserved(Initial(limit)) && InLine(Initial(limit)) && BlockedKnown(Initial(limit).pass)
  {
    assert Held(Initial(limit)) == [] && Out([]) == [] && TopicsOf([]) == [];
  }

  /** In every run whatever, each buffered message is held, was handed on, or was dropped, exactly once. */
  lemma NothingLost(limit: nat, steps: seq<Step>, end: State)
    requires Runs(Initial(limit), steps, end)
    ensures multiset(end.buffered) == multiset(Held(end)) + multiset(Out(end.handed)) + multiset(end.dropped)
  {
    InitialSound(limit);
    RunsConserve(Initial(limit), steps, end);
    hide Held, Out;
  }

  /**
   * Throughout a run the counters say what is held and the limit is kept, if and only if the buffer is never cleared
   * while an open pass has messages in its hands.
   */
  lemma EveryRun(limit: nat, steps: seq<Step>, end: State)
    requires Runs(Initial(limit), steps, end)
    ensures AlwaysSound(Initial(limit), steps) <==> QuietClears(Initial(limit), steps)
    ensures QuietClears(Initial(limit), steps) ==>
              && end.count == |Held(end)| && end.packetIds == IdsOf(Held(end)) && TopicsAgree(end.topics, Held(end))
              && (end.limit > 0 ==> |Held(end)| <= end.limit)
  {
    InitialSound(limit);
    RunsAgree(Initial(limit), steps, end);
    hide Held, IdsOf, TopicsAgree, DistinctIds;
  }

  /** With the counters right, messages of one route leave in arrival order throughout, if and only if none overtakes. */
  lemma OrderedExactly(limit: nat, steps: seq<Step>, end: State)
    requires Runs(Initial(limit), steps, end) && QuietClears(Initial(limit), steps)
    ensures AlwaysInLine(Initial(limit), steps) <==> NeverOvertakes(Initial(limit), steps)
    ensures NeverOvertakes(Initial(limit), steps) ==>
              forall i, j :: 0 <= i < j < |end.released| && RouteOf(end.released[i]) == RouteOf(end.released[j]) ==>
                end.released[i].serial < end.released[j].serial
  {
    InitialSound(limit);
    RunsKeepOrder(Initial(limit), steps, end);
    hide RouteOf, Ascending, Held;
  }

  // What has left alone: an overtaken message may be dropped, or go to a request.

  /** The messages a delivery leaves behind in its pass, of its own route. */
  function LeftBehind(s: State, e: Step): set<Publish> {
    if e.DeliveredStep? && Delivering(s) && !s.pass.value.delivering.value.claimed then
      Behind(s.pass.value.unmatched, s.pass.value.delivering.value.publish)
    else {}
  }

  /** All messages overtaken in the run. */
  ghost function Overtaken(s: State, steps: seq<Step>): set<Publish>
    decreases |steps|
  {
    if steps == [] || !Enabled(s, steps[0]) then {}
    else LeftBehind(s, steps[0]) + Overtaken(Apply(s, steps[0]), steps[1..])
  }

  /** Messages of one route have left in arrival order. */
  ghost predicate RouteOrdered(released: seq<Publish>) {
    forall i, j :: 0 <= i < j < |released| && RouteOf(released[i]) == RouteOf(released[j]) ==> released[i].serial < released[j].serial
  }

  predicate Passes(q: Publish, p: Publish) { RouteOf(q) == RouteOf(p) && q.serial > p.serial }

  /** A held message has been overtaken exactly if a later one of its route has left; none that has left is held. */
  ghost predicate HeldTracked(released: seq<Publish>, held: seq<Publish>, overtaken: set<Publish>) {
    forall p :: p in held ==>
      (forall q :: q in released ==> q.serial != p.serial) && (p in overtaken <==> exists q :: q in released && Passes(q, p))
  }

  /** The order is lost exactly if an overtaken message has left. */
  ghost predicate Tracked(released: seq<Publish>, held: seq<Publish>, overtaken: set<Publish>, arrived: nat) {
    && HeldTracked(released, held, overtaken)
    && (RouteOrdered(released) <==> forall p :: p in released ==> p !in overtaken)
    && (forall p :: p in released || p in overtaken ==> p.serial < arrived)
  }

  ghost predicate Tracks(s: State, overtaken: set<Publish>) {
    Ascending(Held(s), s.arrived) && Tracked(s.released, Held(s), overtaken, s.arrived)
  }

  lemma FewerTracked(released: seq<Publish>, held: seq<Publish>, less: seq<Publish>, overtaken: set<Publish>, arrived: nat, later: nat)
    requires Tracked(released, held, overtaken, arrived) && arrived <= later && forall p :: p in less ==> p in held
    ensures Tracked(released, less, overtaken, later)
  {
    hide RouteOrdered, Passes;
  }

  lemma OrderedMore(released: seq<Publish>, p: Publish)
    ensures RouteOrdered(released + [p]) <==> RouteOrdered(released) && forall q :: q in released ==> !Overlaps(q, p)
  {
    var more := released + [p];
    assert forall i :: 0 <= i < |released| ==> more[i] == released[i];
    if RouteOrdered(more) {
      forall q | q in released
        ensures !Overlaps(q, p)
      {
        var i :| 0 <= i < |released| && released[i] == q;
        assert more[i] == q && more[|released|] == p;
      }
      assert RouteOrdered(released);
    }
    if RouteOrdered(released) && forall q :: q in released ==> !Overlaps(q, p) {
      forall i, j | 0 <= i < j < |more| && RouteOf(more[i]) == RouteOf(more[j])
        ensures more[i].serial < more[j].serial
      {
        assert more[i] in released;
        assert !Overlaps(more[i], p);
      }
    }
    hide RouteOf;
  }

  /** `q` has left although it came no earlier than `p`, of the same route. */
  predicate Overlaps(q: Publish, p: Publish) { RouteOf(q) == RouteOf(p) && q.serial >= p.serial }

  /** What is held around a message: earlier ones before it, later ones after it. */
  lemma AroundSerials(a: seq<Publish>, p: Publish, b: seq<Publish>, arrived: nat)
    requires Ascending(a + [p] + b, arrived)
    ensures forall q :: q in a + b ==>
              q in a + [p] + b && q.serial != p.serial && (q in a <==> q.serial < p.serial) && q.serial < arrived
    ensures p in a + [p] + b && p.serial < arrived
  {
    var held, rest := a + [p] + b, a + b;
    AscendingMiddle(a, p, b, arrived);
    assert held[|a|] == p;
    forall q | q in rest
      ensures q in held && q.serial != p.serial && (q in a <==> q.serial < p.serial) && q.serial < arrived
    {
      var i :| 0 <= i < |rest| && rest[i] == q;
      assert i < |a| ==> q in a;
      if q in a {
        var j :| 0 <= j < |a| && a[j] == q;
        assert rest[j] == q;
      }
    }
  }

  function Behind(a: seq<Publish>, p: Publish): set<Publish> { set q | q in a && RouteOf(q) == RouteOf(p) }

  lemma ReleaseHeldTracked(released: seq<Publish>, a: seq<Publish>, p: Publish, b: seq<Publish>, overtaken: set<Publish>, arrived: nat)
    requires Ascending(a + [p] + b, arrived) && HeldTracked(released, a + [p] + b, overtaken)
    ensures HeldTracked(released + [p], a + b, overtaken + Behind(a, p))
  {
    AroundSerials(a, p, b, arrived);
    var rest, held := a + b, a + [p] + b;
    forall q | q in rest
      ensures forall x :: x in released + [p] ==> x.serial != q.serial
      ensures q in overtaken + Behind(a, p) <==> exists x :: x in released + [p] && Passes(x, q)
    {
      assert q in held;
      assert Passes(p, q) <==> q in Behind(a, p);
      assert p in released + [p];
      assert forall x :: x in released ==> x in released + [p];
    }
    hide RouteOf, Ascending, Passes, Behind;
  }

  lemma ReleaseOrderTracked(released: seq<Publish>, a: seq<Publish>, p: Publish, b: seq<Publish>, overtaken: set<Publish>, arrived: nat)
    requires Ascending(a + [p] + b, arrived) && Tracked(released, a + [p] + b, overtaken, arrived)
    ensures RouteOrdered(released + [p]) <==> forall q :: q in released + [p] ==> q !in overtaken + Behind(a, p)
  {
    AroundSerials(a, p, b, arrived);
    OrderedMore(released, p);
    var held := a + [p] + b;
    assert p in held;
    assert forall q :: q in released ==> (Overlaps(q, p) <==> Passes(q, p));
    assert forall q :: q in Behind(a, p) ==> q in a + b && q in held;
    assert forall q :: q in released + [p] ==> q !in Behind(a, p);
    assert forall q :: q in released + [p] <==> q in released || q == p;
    hide RouteOf, Ascending, Passes, Overlaps, Behind, RouteOrdered;
  }

  /** A message handed to a subscription out of the middle of what is held. */
  lemma ReleaseTracked(released: seq<Publish>, a: seq<Publish>, p: Publish, b: seq<Publish>, overtaken: set<Publish>, arrived: nat)
    requires Ascending(a + [p] + b, arrived) && Tracked(released, a + [p] + b, overtaken, arrived)
    ensures Tracked(released + [p], a + b, overtaken + Behind(a, p), arrived)
  {
    AroundSerials(a, p, b, arrived);
    ReleaseHeldTracked(released, a, p, b, overtaken, arrived);
    ReleaseOrderTracked(released, a, p, b, overtaken, arrived);
    assert forall q :: q in Behind(a, p) ==> q in a + b;
    hide Ascending, HeldTracked, RouteOrdered, Behind;
  }

  lemma DeliveryTracks(s: State, overtaken: set<Publish>)
    requires Tracks(s, overtaken) && Delivering(s)
    ensures Tracks(Delivered(s), overtaken + LeftBehind(s, DeliveredStep))
  {
    var pass := s.pass.value;
    var d := pass.delivering.value;
    var b := pass.pending + s.publishes;
    AroundDelivery(s);
    HeldAfterDelivery(s);
    AscendingMiddle(pass.unmatched, d.publish, b, s.arrived);
    if d.claimed {
      FewerTracked(s.released, Held(s), pass.unmatched + b, overtaken, s.arrived, s.arrived);
      assert overtaken + {} == overtaken;
    } else {
      ReleaseTracked(s.released, pass.unmatched, d.publish, b, overtaken, s.arrived);
    }
    hide Held, Ascending, Tracked, RouteOf;
  }

  lemma AcceptTracks(s: State, p: Publish, r: Recipient, overtaken: set<Publish>)
    requires Tracks(s, overtaken) && Sound(s) && p.serial >= s.arrived
    ensures Tracks(Accepting(s, p, r), overtaken)
  {
    var z := Accepting(s, p, r);
    var v := Verdict(s, p, r);
    AcceptHeld(s, p, r);
    if v.Passed? && r.Subscription? {
      NoneOnTopic(s, p.topic);
      OrderedMore(s.released, p);
      assert forall q :: q in s.released ==> !Overlaps(q, p);
      forall q | q in Held(s)
        ensures forall x :: x in z.released ==> x.serial != q.serial
        ensures (exists x :: x in z.released && Passes(x, q)) == (exists x :: x in s.released && Passes(x, q))
      {
        assert !Passes(p, q);
        assert forall x :: x in z.released <==> x in s.released || x == p;
      }
    } else if v.Buffered? {
      assert forall q :: q in s.released ==> !Passes(q, p);
    }
    hide Held, RouteOrdered, Sound, RouteOf, Passes, Overlaps;
  }

  lemma EmptyTracks(s: State, overtaken: set<Publish>)
    requires Tracks(s, overtaken)
    ensures Tracks(Empty(s), overtaken)
  {
    EmptyAscends(s);
    FewerTracked(s.released, Held(s), Held(Empty(s)), overtaken, s.arrived, s.arrived);
    hide Held, Tracked, Ascending;
  }

  lemma EmptyAscends(s: State)
    requires Ascending(Held(s), s.arrived)
    ensures Ascending(Held(Empty(s)), s.arrived) && forall p :: p in Held(Empty(s)) ==> p in Held(s)
  {
    var held := Held(s);
    assert held == Locals(s.pass) + s.publishes && Held(Empty(s)) == Locals(s.pass);
    assert forall i :: 0 <= i < |Locals(s.pass)| ==> Locals(s.pass)[i] == held[i];
    hide Held, Locals;
  }

  lemma StepTracks(s: State, e: Step, overtaken: set<Publish>)
    requires Sound(s) && Tracks(s, overtaken) && Enabled(s, e)
    ensures Tracks(Apply(s, e), overtaken + LeftBehind(s, e))
  {
    assert overtaken + {} == overtaken;
    match e
    case AcceptStep(p, r) => AcceptTracks(s, p, r, overtaken);
    case DeliveredStep => DeliveryTracks(s, overtaken);
    case DropStep => EmptyTracks(s, overtaken);
    case ClearStep => EmptyTracks(s, overtaken);
    case _ =>
      MovesKeepHeld(s, e);
      hide Held, Tracked, Ascending, Apply;
  }

  lemma {:induction false} RunsTrack(s: State, steps: seq<Step>, end: State, overtaken: set<Publish>)
    requires Sound(s) && Tracks(s, overtaken) && Runs(s, steps, end) && QuietClears(s, steps)
    ensures Tracks(end, overtaken + Overtaken(s, steps))
    decreases |steps|
  {
    hide Sound, Tracks, Apply, Enabled, QuietClear, LeftBehind;
    if steps == [] {
      assert overtaken + {} == overtaken;
    } else {
      StepAgrees(s, steps[0]);
      StepTracks(s, steps[0], overtaken);
      RunsTrack(Apply(s, steps[0]), steps[1..], end, overtaken + LeftBehind(s, steps[0]));
      assert overtaken + LeftBehind(s, steps[0]) + Overtaken(Apply(s, steps[0]), steps[1..]) == overtaken + Overtaken(s, steps);
    }
  }

  /**
   * With the counters right, what has left is in arrival order, route by route, if and only if nothing that has left was
   * overtaken before.
   */
  lemma ReleasedOrderedExactly(limit: nat, steps: seq<Step>, end: State)
    requires Runs(Initial(limit), steps, end) && QuietClears(Initial(limit), steps)
    ensures RouteOrdered(end.released) <==> forall p :: p in end.released ==> p !in Overtaken(Initial(limit), steps)
  {
    hide Runs, QuietClears, Overtaken, RouteOrdered, Held, Sound, Conserved, InLine, Ascending, HeldTracked;
    InitialSound(limit);
    NothingTracked(limit);
    RunsTrack(Initial(limit), steps, end, {});
    assert {} + Overtaken(Initial(limit), steps) == Overtaken(Initial(limit), steps);
  }

  lemma NothingTracked(limit: nat)
    ensures Tracks(Initial(limit), {})
  {
    assert Held(Initial(limit)) == [];
  }

  lemma NoneOnTopic(s: State, topic: string)
    requires Sound(s) && topic !in s.topics
    ensures forall p :: p in Held(s) ==> p.topic != topic
  {
    var held := Held(s);
    forall i | 0 <= i < |held|
      ensures held[i].topic != topic
    {
      assert TopicsOf(held)[i] == held[i].topic;
      assert held[i].topic in multiset(TopicsOf(held));
      assert Count(s.topics, held[i].topic) > 0;
    }
    hide Held, TopicsAgree, DistinctIds;
  }

  /** While routes stay blocked for the rest of a pass, messages of one route are released in arrival order. */
  lemma ReleasedInArrivalOrder(limit: nat, steps: seq<Step>, end: State, i: nat, j: nat)
    requires Runs(Initial(limit), steps, end) && QuietClears(Initial(limit), steps) && SteadyRun(Initial(limit), steps)
    requires i < j < |end.released| && RouteOf(end.released[i]) == RouteOf(end.released[j])
    ensures end.released[i].serial < end.released[j].serial
  {
    InitialSound(limit);
    SteadyRunsOn(Initial(limit), steps, end);
    OrderedExactly(limit, steps, end);
    hide RouteOf;
  }

  // Three messages, the first and the last of one route.

  const FIRST := Publish(0, "t", None, None, 0)

  /** At QoS 1: its PUBACK is sent before the pass goes on, and other tasks run meanwhile. */
  const OTHER := Publish(1, "u", None, Some(7), 1)

  const LAST := Publish(2, "t", None, None, 0)

  const THREE := State(0, [FIRST, OTHER, LAST], {7}, map["t" := 2, "u" := 1], 3, None, 3, [FIRST, OTHER, LAST], [], [], [])

  lemma ThreeBuffered()
    ensures Runs(Initial(0), [AcceptStep(FIRST, NoRecipient), AcceptStep(OTHER, NoRecipient), AcceptStep(LAST, NoRecipient)], THREE)
  {
    var one := State(0, [FIRST], {}, map["t" := 1], 1, None, 1, [FIRST], [], [], []);
    var two := State(0, [FIRST, OTHER], {7}, map["t" := 1, "u" := 1], 2, None, 2, [FIRST, OTHER], [], [], []);
    assert Accepting(Initial(0), FIRST, NoRecipient) == one;
    assert Accepting(one, OTHER, NoRecipient) == two;
    assert Accepting(two, LAST, NoRecipient) == THREE;
    RunsBack(two, AcceptStep(LAST, NoRecipient), [], THREE);
    RunsBack(one, AcceptStep(OTHER, NoRecipient), [AcceptStep(LAST, NoRecipient)], THREE);
    RunsBack(Initial(0), AcceptStep(FIRST, NoRecipient), [AcceptStep(OTHER, NoRecipient), AcceptStep(LAST, NoRecipient)], THREE);
  }

  const LEFT := State(0, [FIRST], {}, map["t" := 1], 1, None, 3, [FIRST, OTHER, LAST],
                      [Delivery(OTHER, false), Delivery(LAST, false)], [OTHER, LAST], [])

  const PARTED := State(0, [], {}, map["t" := 2], 2, Some(Pass([FIRST], None, [LAST], {RouteOf(FIRST)})), 3, [FIRST, OTHER, LAST],
                        [Delivery(OTHER, false)], [OTHER], [])

  /** The first message finds its queue full, and the second is delivered. */
  lemma FirstStays()
    ensures Runs(THREE, [BeginStep, SwapStep, TurnStep(Full), TurnStep(Room), DeliveredStep], PARTED)
  {
    var s1 := THREE.(pass := Some(Pass([], None, [], {})));
    var s2 := s1.(publishes := [], pass := Some(Pass([], None, [FIRST, OTHER, LAST], {})));
    var s3 := s2.(pass := Some(Pass([FIRST], None, [OTHER, LAST], {RouteOf(FIRST)})));
    var s4 := s3.(pass := Some(Pass([FIRST], Some(Delivery(OTHER, false)), [LAST], {RouteOf(FIRST)})));
    var held := [FIRST, OTHER, LAST];
    assert held[1..] == [OTHER, LAST] && held[1..][1..] == [LAST];
    assert [] + [FIRST] == [FIRST] && {} + {RouteOf(FIRST)} == {RouteOf(FIRST)};
    assert s2.pass.value.pending == held && s3.pass.value.pending == held[1..];
    assert Turn(s2, Full).pass == s3.pass;
    assert Turn(s3, Room) == s4;
    assert Delivered(s4) == PARTED;
    hide Turn, Delivered;
    RunsBack(s4, DeliveredStep, [], PARTED);
    RunsBack(s3, TurnStep(Room), [DeliveredStep], PARTED);
    RunsBack(s2, TurnStep(Full), [TurnStep(Room), DeliveredStep], PARTED);
    RunsBack(s1, SwapStep, [TurnStep(Full), TurnStep(Room), DeliveredStep], PARTED);
    RunsBack(THREE, BeginStep, [SwapStep, TurnStep(Full), TurnStep(Room), DeliveredStep], PARTED);
  }

  /** The third finds the room its queue got meanwhile. */
  lemma LastGoes()
    ensures Runs(PARTED, [TurnStep(Room), DeliveredStep, EndStep], LEFT)
  {
    var s6 := PARTED.(pass := Some(Pass([FIRST], Some(Delivery(LAST, false)), [], {RouteOf(FIRST)})));
    var s7 := LEFT.(publishes := [], pass := Some(Pass([FIRST], None, [], {RouteOf(FIRST)})));
    var pass := PARTED.pass.value;
    assert pass.pending == [LAST] && pass.pending[1..] == [] && pass.unmatched == [FIRST];
    assert Turn(PARTED, Room) == s6;
    assert Delivered(s6) == s7;
    assert Close(s7) == LEFT;
    hide Turn, Delivered, Close;
    RunsBack(s7, EndStep, [], LEFT);
    RunsBack(s6, DeliveredStep, [EndStep], LEFT);
    RunsBack(PARTED, TurnStep(Room), [DeliveredStep, EndStep], LEFT);
  }

  lemma SecondPass() returns (end: State)
    ensures Runs(LEFT, [BeginStep, SwapStep, TurnStep(Room), DeliveredStep, EndStep], end)
    ensures end.released == [OTHER, LAST, FIRST] && Held(end) == []
  {
    var s1 := LEFT.(pass := Some(Pass([], None, [], {})));
    var s2 := s1.(publishes := [], pass := Some(Pass([], None, [FIRST], {})));
    var s3 := s2.(pass := Some(Pass([], Some(Delivery(FIRST, false)), [], {})));
    assert [FIRST][1..] == [];
    assert Turn(s2, Room) == s3;
    var s4 := Delivered(s3);
    end := Close(s4);
    RunsBack(s4, EndStep, [], end);
    RunsBack(s3, DeliveredStep, [EndStep], end);
    RunsBack(s2, TurnStep(Room), [DeliveredStep, EndStep], end);
    RunsBack(s1, SwapStep, [TurnStep(Room), DeliveredStep, EndStep], end);
    RunsBack(LEFT, BeginStep, [SwapStep, TurnStep(Room), DeliveredStep, EndStep], end);
  }

  /** A queue that gets room while the PUBACK of another message is sent lets a later message overtake an earlier one. */
  lemma RoomMidPassReorders() returns (steps: seq<Step>, end: State)
    ensures Runs(Initial(0), steps, end) && Held(end) == [] && |end.released| == 3
    ensures RouteOf(end.released[1]) == RouteOf(end.released[2]) && end.released[1].serial > end.released[2].serial
  {
    ThreeBuffered();
    FirstStays();
    LastGoes();
    end := SecondPass();
    var first := [AcceptStep(FIRST, NoRecipient), AcceptStep(OTHER, NoRecipient), AcceptStep(LAST, NoRecipient)];
    var stay, go := [BeginStep, SwapStep, TurnStep(Full), TurnStep(Room), DeliveredStep], [TurnStep(Room), DeliveredStep, EndStep];
    var again := [BeginStep, SwapStep, TurnStep(Room), DeliveredStep, EndStep];
    RunsJoin(Initial(0), first, THREE, stay, PARTED);
    RunsJoin(Initial(0), first + stay, PARTED, go, LEFT);
    RunsJoin(Initial(0), first + stay + go, LEFT, again, end);
    steps := first + stay + go + again;
    hide Runs;
  }

  lemma {:induction false} RunsJoin(s: State, first: seq<Step>, mid: State, second: seq<Step>, end: State)
    requires Runs(s, first, mid) && Runs(mid, second, end)
    ensures Runs(s, first + second, end)
    decreases |first|
  {
    hide Enabled, Apply;
    if first == [] {
      assert first + second == second;
    } else {
      RunsJoin(Apply(s, first[0]), first[1..], mid, second, end);
      assert (first + second)[1..] == first[1..] + second && (first + second)[0] == first[0];
    }
  }

  /** A run with one more step in front. */
  lemma RunsBack(s: State, e: Step, steps: seq<Step>, end: State)
    requires Enabled(s, e) && Runs(Apply(s, e), steps, end)
    ensures Runs(s, [e] + steps, end)
  {
    assert ([e] + steps)[0] == e && ([e] + steps)[1..] == steps;
    hide Enabled, Apply;
  }

  // The buffer as an object.

  class PersistentReplayBuffered {
    const limit: nat
    var publishes: seq<Publish>
    var packetIds: set<int>
    var topics: map<string, int>
    var count: int
    ghost var pass: Option<Pass>          // the local variables of the pass under way
    ghost var arrived: nat
    ghost var buffered: seq<Publish>
    ghost var handed: seq<Delivery>
    ghost var released: seq<Publish>
    ghost var dropped: seq<Publish>

    ghost function Now(): State
      reads this
    {
      State(limit, publishes, packetIds, topics, count, pass, arrived, buffered, handed, released, dropped)
    }

    constructor (limit: nat)
      ensures Now() == Initial(limit) && Sound(Now()) && Conserved(Now()) && InLine(Now())
    {
      this.limit := limit;
      publishes, packetIds, topics, count, pass := [], {}, map[], 0, None;
      arrived, buffered, handed, released, dropped := 0, [], [], [], [];
      new;
      InitialSound(limit);
    }

    /** `accept`; Overflow is the MQTTProtocolError raised after aborting the connection. */
    method Accept(p: Publish, r: Recipient) returns (v: Accepted)
      requires Sound(Now()) && p.serial >= arrived
      modifies this
      ensures Sound(Now()) && v == Verdict(old(Now()), p, r) && Now() == Accepting(old(Now()), p, r)
    {
      hide Sound;
      AcceptAgrees(Now(), p, r);
      if r.Request? {
        arrived := p.serial + 1;
        return Passed;
      }
      if r.Subscription? && p.topic !in topics {
        arrived, released := p.serial + 1, released + [p];
        return Passed;
      }
      if p.packetId.Some? && p.packetId.value in packetIds {
        return Duplicate;
      }
      if limit != 0 && count >= limit {
        return Overflow;
      }
      publishes := publishes + [p];
      count := count + 1;
      topics := topics[p.topic := (if p.topic in topics then topics[p.topic] else 0) + 1];
      if p.packetId.Some? {
        packetIds := packetIds + {p.packetId.value};
      }
      arrived, buffered := p.serial + 1, buffered + [p];
      assert packetIds == old(packetIds) + (if p.packetId.Some? then {p.packetId.value} else {});
      assert Now() == Accepting(old(Now()), p, r);
      v := Buffered;
    }

    /** `_discard`; false is the KeyError raised for a topic that is not on record, once the count is lowered. */
    method DiscardOne(p: Publish) returns (ok: bool)
      modifies `count, `topics, `packetIds
      ensures ok <==> p.topic in old(topics)
      ensures count == old(count) - 1
      ensures forall t :: Count(topics, t) == Count(old(topics), t) - if ok && t == p.topic then 1 else 0
      ensures packetIds == old(packetIds) - if ok && p.packetId.Some? then {p.packetId.value} else {}
      ensures if ok then Now() == Discard(old(Now()), p) else Now() == old(Now()).(count := old(count) - 1)
    {
      count := count - 1;
      if p.topic !in topics {
        return false;
      }
      var left := topics[p.topic] - 1;
      if left != 0 {
        topics := topics[p.topic := left];
      } else {
        topics := topics - {p.topic};
      }
      if p.packetId.Some? {
        packetIds := packetIds - {p.packetId.value};
      }
      ok := true;
    }

    /** A message with a free recipient has been handed on. */
    method HandOn(p: Publish, claimed: bool)
      requires Sound(Now()) && pass.Some? && pass.value.delivering == Some(Delivery(p, claimed))
      modifies `count, `topics, `packetIds, `pass, `handed, `released
      ensures Sound(Now()) && Now() == Delivered(old(Now()))
      ensures handed == old(handed) + [Delivery(p, claimed)] && pass == Some(old(pass).value.(delivering := None))
    {
      DeliveredAgrees(Now());
      hide Sound, Discard;
      pass := Some(pass.value.(delivering := None));
      handed := handed + [Delivery(p, claimed)];
      released := if claimed then released else released + [p];
      var ok := DiscardOne(p);
    }

    /** One message of an open pass; `stays` says it went back, `fails` that handing it on raised. */
    method TakeTurn(unmatched: seq<Publish>, p: Publish, rest: seq<Publish>, f: Finding, fails: bool) returns (stays: bool)
      requires Sound(Now()) && pass.Some? && pass.value.delivering.None?
      requires pass.value.unmatched == unmatched && pass.value.pending == [p] + rest
      modifies `publishes, `count, `topics, `packetIds, `pass, `handed, `released
      ensures Sound(Now()) && (stays <==> f.Nobody? || f.Full?)
      ensures stays ==> Now() == Turn(old(Now()), f)
      ensures !stays && fails ==> Now() == Failed(Turn(old(Now()), f))
      ensures !stays && !fails ==> Now() == Delivered(Turn(old(Now()), f)) && handed == old(handed) + [Delivery(p, f.Claimed?)]
      ensures !stays && !fails ==> pass == Some(Turn(old(Now()), f).pass.value.(delivering := None)) && publishes == old(publishes)
    {
      StepAgrees(Now(), TurnStep(f));
      hide Sound, Held, Locals, Accepting, Discard, Empty, RouteOf, Delivered;
      pass := Turn(Now(), f).pass;
      stays := f.Nobody? || f.Full?;
      if stays {
        return;
      }
      if fails {
        StepAgrees(Now(), FailedStep);
        publishes := unmatched + [p] + rest + publishes;
        pass := None;
      } else {
        HandOn(p, f.Claimed?);
      }
    }

    /**
     * One pass while nothing else runs. `finding` says what a message's recipient can do, `fails` whether handing it
     * on raises. Each change is a step of the interleaved system.
     */
    method DeliverPending(finding: Publish -> Finding, fails: Publish -> bool) returns (raised: bool)
      requires Sound(Now()) && pass.None?
      modifies `publishes, `count, `topics, `packetIds, `pass, `handed, `released
      ensures Sound(Now()) && pass.None?
      ensures publishes == Passing(old(publishes), finding, fails).kept
      ensures handed == old(handed) + Passing(old(publishes), finding, fails).out
      ensures raised == Passing(old(publishes), finding, fails).raised
    {
      hide Sound, Passing, Delivered, Onward, Held, Locals, Accepting, Discard, Empty, RouteOf;
      ghost var queue := publishes;
      var unmatched: seq<Publish>, pending: seq<Publish> := [], [];
      StepAgrees(Now(), BeginStep);
      pass := Some(Pass([], None, [], {}));
      ghost var sent: seq<Delivery> := [];
      PassingStarts(queue, finding, fails);
      while publishes != []
        invariant pass.Some? && pass.value == Pass(unmatched, None, [], pass.value.blocked) && pending == []
        invariant Sound(Now()) && handed == old(handed) + sent
        invariant Passing(queue, finding, fails) == Onward(unmatched, sent, Passing(publishes, finding, fails))
        decreases |publishes|
      {
        StepAgrees(Now(), SwapStep);
        pending, publishes := publishes, [];
        pass := Some(pass.value.(pending := pending));
        while pending != []
          invariant pass.Some? && pass.value == Pass(unmatched, None, pending, pass.value.blocked) && publishes == []
          invariant Sound(Now()) && handed == old(handed) + sent
          invariant Passing(queue, finding, fails) == Onward(unmatched, sent, Passing(pending, finding, fails))
          decreases |pending|
        {
          var p := pending[0];
          PassingTurns(unmatched, sent, pending, finding, fails);
          assert pending == [p] + pending[1..];
          var stays := TakeTurn(unmatched, p, pending[1..], finding(p), fails(p));
          if stays {
            unmatched, pending := unmatched + [p], pending[1..];
          } else if fails(p) {
            return true;
          } else {
            pending, sent := pending[1..], sent + [Delivery(p, finding(p).Claimed?)];
          }
        }
      }
      StepAgrees(Now(), EndStep);
      PassingStarts(publishes, finding, fails);
      OnwardEnd(unmatched, sent);
      publishes, pass := unmatched + pending + publishes, None;
      assert publishes == unmatched;
      raised := false;
    }

    /** `clear`, and the end of expiry. */
    method Clear()
      modifies `publishes, `packetIds, `topics, `count, `dropped
      ensures Now() == Empty(old(Now())) && (Sound(Now()) <==> Locals(old(pass)) == [])
    {
      ClearAgrees(Now());
      hide Sound;
      dropped := dropped + publishes;
      publishes, packetIds, topics, count := [], {}, map[], 0;
    }

    /** `drain`: whether the buffer stays in place, which it does while anything is held. */
    method Drain(finding: Publish -> Finding, fails: Publish -> bool) returns (raised: bool, stays: bool)
      requires Sound(Now()) && pass.None?
      modifies `publishes, `count, `topics, `packetIds, `pass, `handed, `released
      ensures Sound(Now()) && pass.None? && (!raised ==> (stays <==> Held(Now()) != []))
      ensures publishes == Passing(old(publishes), finding, fails).kept
      ensures handed == old(handed) + Passing(old(publishes), finding, fails).out
      ensures raised == Passing(old(publishes), finding, fails).raised
    {
      var r := DeliverPending(finding, fails);
      raised, stays := r, count != 0;
    }

    /** `expire`: what cannot be handed on is dropped, without acknowledgement; whether anything was. */
    method Expire(finding: Publish -> Finding, fails: Publish -> bool) returns (raised: bool, lost: bool)
      requires Sound(Now()) && pass.None?
      modifies `publishes, `count, `topics, `packetIds, `pass, `handed, `released, `dropped
      ensures Sound(Now()) && pass.None?
      ensures !raised ==> Held(Now()) == [] && dropped == old(dropped) + Passing(old(publishes), finding, fails).kept
      ensures !raised ==> (lost <==> Passing(old(publishes), finding, fails).kept != [])
      ensures raised ==> publishes == Passing(old(publishes), finding, fails).kept && dropped == old(dropped)
      ensures handed == old(handed) + Passing(old(publishes), finding, fails).out
      ensures raised == Passing(old(publishes), finding, fails).raised
    {
      var r := DeliverPending(finding, fails);
      raised, lost := r, count != 0;
      if !raised {
        Clear();
      }
    }
  }

  // One pass over a queue, with nothing else running.

  datatype Outcome = Outcome(kept: seq<Publish>, out: seq<Delivery>, raised: bool)

  function Passing(queue: seq<Publish>, finding: Publish -> Finding, fails: Publish -> bool): Outcome {
    if queue == [] then Outcome([], [], false)
    else
      var p, f := queue[0], finding(queue[0]);
      if f.Nobody? || f.Full? then Onward([p], [], Passing(queue[1..], finding, fails))
      else if fails(p) then Outcome(queue, [], true)
      else Onward([], [Delivery(p, f.Claimed?)], Passing(queue[1..], finding, fails))
  }

  function Onward(kept: seq<Publish>, out: seq<Delivery>, o: Outcome): Outcome {
    Outcome(kept + o.kept, out + o.out, o.raised)
  }

  lemma PassingStarts(queue: seq<Publish>, finding: Publish -> Finding, fails: Publish -> bool)
    ensures Onward([], [], Passing(queue, finding, fails)) == Passing(queue, finding, fails)
    ensures queue == [] ==> Passing(queue, finding, fails) == Outcome([], [], false)
  {
  }

  lemma PassingTurns(kept: seq<Publish>, out: seq<Delivery>, queue: seq<Publish>, finding: Publish -> Finding, fails: Publish -> bool)
    requires queue != []
    ensures var p, f := queue[0], finding(queue[0]);
            Onward(kept, out, Passing(queue, finding, fails)) ==
            if f.Nobody? || f.Full? then Onward(kept + [p], out, Passing(queue[1..], finding, fails))
            else if fails(p) then Outcome(kept + [p] + queue[1..], out, true)
            else Onward(kept, out + [Delivery(p, f.Claimed?)], Passing(queue[1..], finding, fails))
  {
    var p, f, o := queue[0], finding(queue[0]), Passing(queue[1..], finding, fails);
    if f.Nobody? || f.Full? {
      OnwardTwice(kept, out, [p], [], o);
      assert out + [] == out;
    } else if fails(p) {
      assert kept + queue == kept + [p] + queue[1..] && out + [] == out;
    } else {
      OnwardTwice(kept, out, [], [Delivery(p, f.Claimed?)], o);
      assert kept + [] == kept;
    }
    hide Onward;
  }

  lemma OnwardEnd(kept: seq<Publish>, out: seq<Delivery>)
    ensures Onward(kept, out, Outcome([], [], false)) == Outcome(kept, out, false)
  {
  }

  lemma OnwardTwice(a: seq<Publish>, x: seq<Delivery>, b: seq<Publish>, y: seq<Delivery>, o: Outcome)
    ensures Onward(a, x, Onward(b, y, o)) == Onward(a + b, x + y, o)
  {
    assert a + (b + o.kept) == a + b + o.kept && x + (y + o.out) == x + y + o.out;
  }

  function StaysPut(finding: Publish -> Finding): Publish -> bool { p => finding(p).Nobody? || finding(p).Full? }

  lemma OutAppend(a: seq<Delivery>, b: seq<Delivery>)
    ensures Out(a + b) == Out(a) + Out(b)
  {
  }

  /** What a pass keeps and what it hands on is what it was given, what it keeps in the old order. */
  lemma {:induction false} PassingPartitions(queue: seq<Publish>, finding: Publish -> Finding, fails: Publish -> bool)
    ensures var o := Passing(queue, finding, fails);
            && multiset(o.kept) + multiset(Out(o.out)) == multiset(queue)
            && (!o.raised ==> o.kept == Where(queue, StaysPut(finding)))
  {
    assert Out([]) == [];
    if queue != [] {
      var p, f := queue[0], finding(queue[0]);
      PassingPartitions(queue[1..], finding, fails);
      FirstSorted(queue, Passing(queue[1..], finding, fails), Delivery(p, f.Claimed?));
      assert StaysPut(finding)(p) == (f.Nobody? || f.Full?);
      hide Out, StaysPut, Onward;
    }
  }

  lemma FirstSorted(queue: seq<Publish>, rest: Outcome, d: Delivery)
    requires queue != [] && d.publish == queue[0]
    requires multiset(rest.kept) + multiset(Out(rest.out)) == multiset(queue[1..])
    ensures var o := Onward([queue[0]], [], rest);
            multiset(o.kept) + multiset(Out(o.out)) == multiset(queue) && o.kept == [queue[0]] + rest.kept && o.raised == rest.raised
    ensures var o := Onward([], [d], rest);
            multiset(o.kept) + multiset(Out(o.out)) == multiset(queue) && o.kept == rest.kept && o.raised == rest.raised
  {
    assert queue == [queue[0]] + queue[1..];
    assert Out([d]) == [d.publish];
    OutAppend([d], rest.out);
    OutAppend([], rest.out);
    assert [] + rest.kept == rest.kept && [] + rest.out == rest.out;
    hide Out;
  }
}
