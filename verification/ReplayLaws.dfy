/** What each operation of the replay buffer does to its fields, and what one pass does to a queue. */
module ReplayLaws {
  import opened Util
  import opened Replay

  /**
   * `accept`: a request, or a subscription none of whose messages wait, takes the message at once. Any other message is a
   * duplicate by its identifier, or one too many, and changes nothing; or it goes to the end of the queue and is counted.
   */
  lemma AcceptExactly(s: State, p: Publish, r: Recipient)
    ensures var z := Accepting(s, p, r); var v := Verdict(s, p, r);
            var passes := r.Request? || (r.Subscription? && p.topic !in s.topics);
            var repeated := p.packetId.Some? && p.packetId.value in s.packetIds;
            if passes then
              v == Passed && z == s.(arrived := p.serial + 1, released := s.released + if r.Request? then [] else [p])
            else if repeated then v == Duplicate && z == s
            else if s.limit > 0 && s.count >= s.limit then v == Overflow && z == s
            else
              && v == Buffered && z.publishes == s.publishes + [p] && z.count == s.count + 1 && z.buffered == s.buffered + [p]
              && (forall t :: Count(z.topics, t) == Count(s.topics, t) + if t == p.topic then 1 else 0)
              && (forall id :: id in z.packetIds <==> id in s.packetIds || p.packetId == Some(id))
              && z == s.(publishes := z.publishes, count := z.count, topics := z.topics, packetIds := z.packetIds,
                         arrived := p.serial + 1, buffered := z.buffered)
  {
    assert s.released + [] == s.released;
  }

  /** A turn takes the first message of the pass: back to the end of the unmatched ones, or out for delivery. */
  lemma TurnExactly(s: State, f: Finding)
    requires s.pass.Some? && s.pass.value.delivering.None? && s.pass.value.pending != []
    ensures var z := Turn(s, f); var was := s.pass.value; var p := was.pending[0]; var stays := f.Nobody? || f.Full?;
            && z.pass.Some? && z == s.(pass := z.pass) && was.pending == [p] + z.pass.value.pending
            && z.pass.value.unmatched == was.unmatched + (if stays then [p] else [])
            && z.pass.value.delivering == (if stays then None else Some(Delivery(p, f.Claimed?)))
  {
    assert s.pass.value.unmatched + [] == s.pass.value.unmatched;
  }

  /** A delivery that returns takes its message out of every counter, and leaves the pass open. */
  lemma DeliveredExactly(s: State)
    requires Sound(s) && Delivering(s)
    ensures var z := Delivered(s); var d := s.pass.value.delivering.value; var p := d.publish;
            && z.count == s.count - 1 && z.handed == s.handed + [d] && z.released == s.released + (if d.claimed then [] else [p])
            && (forall t :: Count(z.topics, t) == Count(s.topics, t) - if t == p.topic then 1 else 0)
            && (forall id :: id in z.packetIds <==> id in s.packetIds && p.packetId != Some(id))
            && z == s.(pass := Some(s.pass.value.(delivering := None)), count := z.count, handed := z.handed, released := z.released,
                       topics := z.topics, packetIds := z.packetIds)
  {
    var p := s.pass.value.delivering.value.publish;
    TopicKnown(s);
    hide Sound;
    assert s.released + [] == s.released;
  }

  lemma TopicKnown(s: State)
    requires Sound(s) && Delivering(s)
    ensures s.pass.value.delivering.value.publish.topic in s.topics
  {
    DeliveredAgrees(s);
    AroundDelivery(s);
  }

  /** However a pass ends, what it did not hand on stands before what came meanwhile, a message whose delivery raised too. */
  lemma PassEndExactly(s: State)
    requires s.pass.Some?
    ensures var was := s.pass.value;
            && (was.delivering.None? ==> Close(s) == s.(publishes := was.unmatched + was.pending + s.publishes, pass := None))
            && (was.delivering.Some? ==>
                  Failed(s) == s.(publishes := was.unmatched + [was.delivering.value.publish] + was.pending + s.publishes, pass := None))
  {
  }

  /** Clearing empties the queue and every counter; a pass under way keeps what it has in its hands. */
  lemma ClearExactly(s: State)
    ensures Empty(s) == s.(publishes := [], packetIds := {}, topics := map[], count := 0, dropped := s.dropped + s.publishes)
  {
  }

  function Moves(finding: Publish -> Finding): Publish -> bool { p => !finding(p).Nobody? && !finding(p).Full? }

  /** Up to the first delivery that raises, at `k` if there is one, the messages with a free recipient go and the others stay. */
  ghost predicate PassedUpTo(queue: seq<Publish>, finding: Publish -> Finding, fails: Publish -> bool, o: Outcome, k: nat) {
    && k <= |queue| && (o.raised <==> k < |queue|)
    && (k < |queue| ==> Moves(finding)(queue[k]) && fails(queue[k]))
    && (forall i :: 0 <= i < k && Moves(finding)(queue[i]) ==> !fails(queue[i]))
    && o.kept == Where(queue[..k], StaysPut(finding)) + queue[k..]
    && Out(o.out) == Where(queue[..k], Moves(finding))
    && forall i :: 0 <= i < |o.out| ==> (o.out[i].claimed <==> finding(o.out[i].publish).Claimed?)
  }

  lemma {:induction false} PassingExactly(queue: seq<Publish>, finding: Publish -> Finding, fails: Publish -> bool)
    ensures exists k: nat :: PassedUpTo(queue, finding, fails, Passing(queue, finding, fails), k)
  {
    var o := Passing(queue, finding, fails);
    if queue == [] {
      assert Out(o.out) == [];
      assert PassedUpTo(queue, finding, fails, o, 0);
    } else if Moves(finding)(queue[0]) && fails(queue[0]) {
      assert Out(o.out) == [] && queue[..0] == [] && queue[0..] == queue;
      assert PassedUpTo(queue, finding, fails, o, 0);
    } else {
      PassingExactly(queue[1..], finding, fails);
      var rest := Passing(queue[1..], finding, fails);
      var k: nat :| PassedUpTo(queue[1..], finding, fails, rest, k);
      OneMore(queue, finding, fails, rest, k);
      assert PassedUpTo(queue, finding, fails, o, k + 1);
    }
  }

  lemma OneMore(queue: seq<Publish>, finding: Publish -> Finding, fails: Publish -> bool, rest: Outcome, k: nat)
    requires queue != [] && PassedUpTo(queue[1..], finding, fails, rest, k) && !(Moves(finding)(queue[0]) && fails(queue[0]))
    ensures var p, f := queue[0], finding(queue[0]);
            PassedUpTo(queue, finding, fails,
                       if Moves(finding)(p) then Onward([], [Delivery(p, f.Claimed?)], rest) else Onward([p], [], rest), k + 1)
  {
    var p, f := queue[0], finding(queue[0]);
    assert queue[..k + 1] == [p] + queue[1..][..k] && queue[k + 1..] == queue[1..][k..];
    assert queue[..k + 1][1..] == queue[1..][..k];
    assert forall i :: 1 <= i < |queue| ==> queue[i] == queue[1..][i - 1];
    assert Moves(finding)(p) != StaysPut(finding)(p);
    var o := if Moves(finding)(p) then Onward([], [Delivery(p, f.Claimed?)], rest) else Onward([p], [], rest);
    assert Out(o.out) == (if Moves(finding)(p) then [p] else []) + Out(rest.out);
    assert o.kept == (if Moves(finding)(p) then [] else [p]) + rest.kept;
    assert Where(queue[..k + 1], Moves(finding)) == (if Moves(finding)(p) then [p] else []) + Where(queue[1..][..k], Moves(finding));
    assert Where(queue[..k + 1], StaysPut(finding)) == (if Moves(finding)(p) then [] else [p]) + Where(queue[1..][..k], StaysPut(finding));
    hide Where, Out, Moves, StaysPut;
  }
}
