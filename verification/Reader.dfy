/** The incremental reader: bytes in as TCP delivers them, packets out. */
module Reader {
  import opened Util
  import opened Wire
  import opened Codec
  import opened CodecProofs

  /** What draining a buffer gives: the packets, the bytes left unread, and the exception that ended it, if any. */
  datatype Drained = Drained(packets: seq<Packet>, unread: Bytes, error: Option<CodecError>)

  function Drain(buf: Bytes, v: Version, maxSize: Option<int>): Drained
    decreases |buf|
  {
    match DecodeSpec(buf, v, maxSize)
    case Err(e) => Drained([], buf, Some(e))
    case Ok(None) => Drained([], buf, None)
    case Ok(Some((p, n))) => After([p], Drain(buf[n..], v, maxSize))
  }

  function After(packets: seq<Packet>, d: Drained): Drained { d.(packets := packets + d.packets) }

  lemma AfterTwice(a: seq<Packet>, b: seq<Packet>, d: Drained)
    ensures After(a, After(b, d)) == After(a + b, d) && After([], d) == d
  {
    assert a + (b + d.packets) == a + b + d.packets;
    assert [] + d.packets == d.packets;
  }

  lemma {:induction false} LengthStable(buf: Bytes, more: Bytes, pos: nat, budget: nat)
    requires !ReadLength(buf, pos, budget).Partial?
    ensures ReadLength(buf + more, pos, budget) == ReadLength(buf, pos, budget)
    decreases budget
  {
    if budget > 0 && buf[pos] >= 128 {
      LengthStable(buf, more, pos + 1, budget - 1);
    }
  }

  /** Once decoding has a packet or an exception to give, later bytes do not change it. */
  lemma DecodeStable(buf: Bytes, more: Bytes, v: Version, maxSize: Option<int>)
    requires DecodeSpec(buf, v, maxSize) != Ok(None)
    ensures DecodeSpec(buf + more, v, maxSize) == DecodeSpec(buf, v, maxSize)
  {
    hide DecodeBody, ReadLength;
    LengthStable(buf, more, 1, 4);
    var length := ReadLength(buf, 1, 4);
    if length.Length? {
      var start, total := 1 + length.width, 1 + length.width + length.value;
      if total <= |buf| {
        assert (buf + more)[start..total] == buf[start..total];
      }
    }
  }

  /** Draining a prefix first and the rest later gives what draining the whole gives. */
  lemma {:induction false} DrainInTwo(a: Bytes, b: Bytes, v: Version, maxSize: Option<int>)
    ensures Drain(a + b, v, maxSize) == After(Drain(a, v, maxSize).packets, Drain(Drain(a, v, maxSize).unread + b, v, maxSize))
    decreases |a|
  {
    hide DecodeSpec;
    var first := DecodeSpec(a, v, maxSize);
    AfterTwice([], [], Drain(a + b, v, maxSize));
    if first != Ok(None) {
      DecodeStable(a, b, v, maxSize);
      if first.Ok? {
        var (p, n) := first.value.value;
        assert (a + b)[n..] == a[n..] + b;
        DrainInTwo(a[n..], b, v, maxSize);
        AfterTwice([p], Drain(a[n..], v, maxSize).packets, Drain(Drain(a, v, maxSize).unread + b, v, maxSize));
      }
    }
  }

  lemma {:induction false} DrainConsumesPrefix(buf: Bytes, v: Version, maxSize: Option<int>)
    ensures |Drain(buf, v, maxSize).unread| <= |buf|
    ensures buf[|buf| - |Drain(buf, v, maxSize).unread|..] == Drain(buf, v, maxSize).unread
    decreases |buf|
  {
    hide DecodeSpec;
    var first := DecodeSpec(buf, v, maxSize);
    if first.Ok? && first.value.Some? {
      var n := first.value.value.1;
      DrainConsumesPrefix(buf[n..], v, maxSize);
    }
  }

  /** One packet after another is decoded off the front of `buf`, until `rest` is left. */
  ghost predicate DecodesTo(buf: Bytes, packets: seq<Packet>, rest: Bytes, v: Version, maxSize: Option<int>)
    decreases |packets|
  {
    if packets == [] then rest == buf
    else
      var first := DecodeSpec(buf, v, maxSize);
      first.Ok? && first.value.Some? && first.value.value.0 == packets[0] &&
      DecodesTo(buf[first.value.value.1..], packets[1..], rest, v, maxSize)
  }

  /** Draining decodes as far as it goes: what is left is no packet yet, or fails with the exception that ended it. */
  lemma {:induction false} DrainExactly(buf: Bytes, v: Version, maxSize: Option<int>)
    ensures var d := Drain(buf, v, maxSize);
            && DecodesTo(buf, d.packets, d.unread, v, maxSize)
            && DecodeSpec(d.unread, v, maxSize) == if d.error.Some? then Err(d.error.value) else Ok(None)
    decreases |buf|
  {
    hide DecodeSpec;
    var first := DecodeSpec(buf, v, maxSize);
    if first.Ok? && first.value.Some? {
      var (p, n) := first.value.value;
      DrainExactly(buf[n..], v, maxSize);
      var rest := Drain(buf[n..], v, maxSize);
      assert ([p] + rest.packets)[1..] == rest.packets;
    }
  }

  // The reader as an object.

  class PacketBuffer {
    var buf: Bytes
    var offset: nat
    const version: Version
    const maxSize: Option<int>
    /** An iteration is suspended and holds a view of the buffer. */
    var viewed: bool
    /** Every byte ever fed, how many of them were parsed, and every packet yielded. */
    ghost var fed: Bytes
    ghost var consumed: nat
    ghost var yielded: seq<Packet>

    ghost predicate Valid()
      reads this
    {
      && offset <= |buf| && (viewed ==> offset > 0)
      && consumed <= |fed| && fed[consumed..] == buf[offset..]
      && Drain(fed, version, maxSize) == After(yielded, Drain(buf[offset..], version, maxSize))
    }

    /** The bytes not parsed yet. */
    ghost function Unread(): Bytes
      reads this
      requires Valid()
    {
      buf[offset..]
    }

    constructor (version: Version, maxSize: Option<int>)
      ensures Valid() && fed == [] && yielded == [] && !viewed && this.version == version && this.maxSize == maxSize
    {
      this.version, this.maxSize, viewed := version, maxSize, false;
      buf, offset, fed, consumed, yielded := [], 0, [], 0, [];
      new;
      hide Drain, After;
      AfterTwice([], [], Drain([], version, maxSize));
      assert buf[offset..] == [] && fed[consumed..] == [];
    }

    /** False is the BufferError raised for a buffer that cannot be resized while an iteration is suspended. */
    method Feed(data: Bytes) returns (ok: bool)
      requires Valid()
      modifies this`buf, this`offset, this`fed
      ensures Valid() && (ok <==> !viewed)
      ensures ok ==> fed == old(fed) + data && Unread() == old(Unread()) + data
      ensures !ok ==> buf == old(buf) && offset == old(offset) && fed == old(fed)
    {
      hide DecodeSpec, Drain, After;
      if viewed {
        return false;
      }
      ghost var before := Unread();
      if offset > 0 {
        buf := buf[offset..];
        offset := 0;
      }
      buf := buf + data;
      assert buf[offset..] == before + data;
      assert (fed + data)[consumed..] == before + data;
      FeedKeeps(fed, yielded, before, data, version, maxSize);
      fed := fed + data;
      ok := true;
    }

    /** Leaving the loop early. */
    method Close()
      requires Valid()
      modifies this`viewed
      ensures Valid() && !viewed
    {
      viewed := false;
    }

    /** One resumption of the iterator: a packet, its end, or an exception. */
    method Next() returns (r: Coded<Option<Packet>>)
      requires Valid()
      modifies this`offset, this`consumed, this`yielded, this`viewed
      ensures Valid() && (viewed <==> r.Ok? && r.value.Some?)
      ensures r.Ok? && r.value.Some? ==>
                yielded == old(yielded) + [r.value.value] && old(consumed) < consumed && offset > old(offset)
      ensures !(r.Ok? && r.value.Some?) ==>
                && yielded == old(yielded) && consumed == old(consumed)
                && Drain(fed, version, maxSize) == Drained(yielded, Unread(), if r.Err? then Some(r.error) else None)
    {
      hide DecodeSpec, Drain, After;
      ghost var before := Unread();
      var result := Decode(buf[offset..], version, maxSize);
      DrainForms(before, yielded, version, maxSize);
      viewed := false;
      if result.Err? {
        return Err(result.error);
      }
      if result.value.None? {
        return Ok(None);
      }
      var (packet, n) := result.value.value;
      assert before[n..] == buf[offset + n..];
      assert fed[consumed..][n..] == fed[consumed + n..];
      offset := offset + n;
      consumed := consumed + n;
      yielded := yielded + [packet];
      viewed := true;
      r := Ok(Some(packet));
    }

    /** Iterating to the end. */
    method DrainAll() returns (packets: seq<Packet>, error: Option<CodecError>)
      requires Valid()
      modifies this`offset, this`consumed, this`yielded, this`viewed
      ensures Valid() && yielded == old(yielded) + packets && !viewed
      ensures Drain(fed, version, maxSize) == Drained(yielded, Unread(), error)
    {
      hide Drain, DecodeSpec, After;
      packets, error := [], None;
      assert yielded + [] == yielded;
      while true
        invariant Valid() && yielded == old(yielded) + packets
        decreases |buf| - offset
      {
        var r := Next();
        if r.Err? {
          error := Some(r.error);
          return;
        }
        if r.value.None? {
          return;
        }
        packets := packets + [r.value.value];
      }
    }
  }

  /** Draining, by what the first decoding gives. */
  lemma DrainForms(unread: Bytes, yielded: seq<Packet>, v: Version, maxSize: Option<int>)
    ensures var first := DecodeSpec(unread, v, maxSize);
            && (first.Err? ==> After(yielded, Drain(unread, v, maxSize)) == Drained(yielded, unread, Some(first.error)))
            && (first == Ok(None) ==> After(yielded, Drain(unread, v, maxSize)) == Drained(yielded, unread, None))
            && (first.Ok? && first.value.Some? ==>
                  var (p, n) := first.value.value;
                  2 <= n <= |unread| &&
                  After(yielded, Drain(unread, v, maxSize)) == After(yielded + [p], Drain(unread[n..], v, maxSize)))
  {
    hide DecodeSpec;
    var first := DecodeSpec(unread, v, maxSize);
    assert yielded + [] == yielded;
    if first.Ok? && first.value.Some? {
      AfterTwice(yielded, [first.value.value.0], Drain(unread[first.value.value.1..], v, maxSize));
    }
  }

  lemma FeedKeeps(fed: Bytes, yielded: seq<Packet>, unread: Bytes, data: Bytes, v: Version, maxSize: Option<int>)
    requires Drain(fed, v, maxSize) == After(yielded, Drain(unread, v, maxSize))
    ensures Drain(fed + data, v, maxSize) == After(yielded, Drain(unread + data, v, maxSize))
  {
    DrainInTwo(fed, data, v, maxSize);
    DrainInTwo(unread, data, v, maxSize);
    hide Drain;
    AfterTwice(yielded, Drain(unread, v, maxSize).packets, Drain(Drain(unread, v, maxSize).unread + data, v, maxSize));
  }

  // Runs of the reader.

  /** One call made by the owner of the buffer, who leaves an iteration before feeding again. */
  datatype Op = Feed(data: Bytes) | Next

  datatype Run = Run(unread: Bytes, yielded: seq<Packet>)

  function Step(r: Run, op: Op, v: Version, maxSize: Option<int>): Run {
    match op
    case Feed(data) => r.(unread := r.unread + data)
    case Next =>
      match DecodeSpec(r.unread, v, maxSize)
      case Ok(Some((p, n))) => Run(r.unread[n..], r.yielded + [p])
      case _ => r
  }

  function Steps(r: Run, ops: seq<Op>, v: Version, maxSize: Option<int>): Run
    decreases |ops|
  {
    if ops == [] then r else Steps(Step(r, ops[0], v, maxSize), ops[1..], v, maxSize)
  }

  function Fed(ops: seq<Op>): Bytes {
    if ops == [] then [] else (if ops[0].Feed? then ops[0].data else []) + Fed(ops[1..])
  }

  lemma {:induction false} RunAgrees(fed: Bytes, r: Run, ops: seq<Op>, v: Version, maxSize: Option<int>)
    requires Drain(fed, v, maxSize) == After(r.yielded, Drain(r.unread, v, maxSize))
    ensures var e := Steps(r, ops, v, maxSize);
            Drain(fed + Fed(ops), v, maxSize) == After(e.yielded, Drain(e.unread, v, maxSize))
    decreases |ops|
  {
    hide DecodeSpec;
    if ops == [] {
      assert fed + [] == fed;
    } else {
      var next := Step(r, ops[0], v, maxSize);
      match ops[0]
      case Feed(data) =>
        assert fed + Fed(ops) == fed + data + Fed(ops[1..]);
        FeedKeeps(fed, r.yielded, r.unread, data, v, maxSize);
        RunAgrees(fed + data, next, ops[1..], v, maxSize);
      case Next =>
        assert fed + Fed(ops) == fed + Fed(ops[1..]);
        var d := DecodeSpec(r.unread, v, maxSize);
        if d.Ok? && d.value.Some? {
          AfterTwice(r.yielded, [d.value.value.0], Drain(next.unread, v, maxSize));
        }
        RunAgrees(fed, next, ops[1..], v, maxSize);
    }
  }

  /**
   * Two runs fed the same bytes, cut and interleaved with iteration in any way, and both iterated until nothing
   * more comes, have yielded the same packets, hold the same unread bytes and end in the same exception.
   */
  lemma ChunkingIrrelevant(ops: seq<Op>, others: seq<Op>, v: Version, maxSize: Option<int>)
    requires Fed(ops) == Fed(others)
    ensures var a, b := Steps(Run([], []), ops, v, maxSize), Steps(Run([], []), others, v, maxSize);
            var x, y := Drain(a.unread, v, maxSize), Drain(b.unread, v, maxSize);
            && a.yielded + x.packets == b.yielded + y.packets && x.error == y.error && x.unread == y.unread
            && (x.packets == [] && y.packets == [] ==> a.yielded == b.yielded)
  {
    hide DecodeSpec, Drain;
    var start := Run([], []);
    AfterTwice([], [], Drain([], v, maxSize));
    RunAgrees([], start, ops, v, maxSize);
    RunAgrees([], start, others, v, maxSize);
    assert [] + Fed(ops) == [] + Fed(others);
    var a, b := Steps(start, ops, v, maxSize), Steps(start, others, v, maxSize);
    assert a.yielded + [] == a.yielded && b.yielded + [] == b.yielded;
  }

  // Streams of encoded packets.

  /** A proper prefix of an encoded packet that the limit allows is neither a packet nor an error. */
  lemma PrefixIsIncomplete(p: Packet, v: Version, maxSize: Option<int>, k: nat)
    requires Encode(p, v).Ok? && k < |Encode(p, v).value|
    requires maxSize.Some? ==> |Encode(p, v).value| <= maxSize.value
    ensures DecodeSpec(Encode(p, v).value[..k], v, maxSize) == Ok(None)
  {
    hide *;
    var bs := Encode(p, v).value;
    PacketRoundTrip(p, v, v, maxSize, []);
    assert bs + [] == bs == bs[..k] + bs[k..];
    if DecodeSpec(bs[..k], v, maxSize) != Ok(None) {
      DecodeStable(bs[..k], bs[k..], v, maxSize);
    }
  }

  function EncodeAll(packets: seq<Packet>, v: Version): Coded<Bytes> {
    if packets == [] then Ok([])
    else
      var head :- Encode(packets[0], v);
      var rest :- EncodeAll(packets[1..], v);
      Ok(head + rest)
  }

  function NormalAll(packets: seq<Packet>, v: Version): seq<Packet> {
    if packets == [] then [] else [Normal(packets[0], v)] + NormalAll(packets[1..], v)
  }

  /** A peer that encodes any packets is read back packet by packet, with `tail` pending. */
  lemma {:induction false} StreamRoundTrip(packets: seq<Packet>, v: Version, tail: Bytes)
    requires EncodeAll(packets, v).Ok? && DecodeSpec(tail, v, None) == Ok(None)
    ensures Drain(EncodeAll(packets, v).value + tail, v, None) == Drained(NormalAll(packets, v), tail, None)
  {
    hide DecodeSpec, Encode, Normal;
    if packets == [] {
      assert [] + tail == tail;
    } else {
      var head, rest := Encode(packets[0], v).value, EncodeAll(packets[1..], v).value + tail;
      PacketRoundTrip(packets[0], v, v, None, rest);
      assert EncodeAll(packets, v).value + tail == head + rest;
      assert (head + rest)[|head|..] == rest;
      StreamRoundTrip(packets[1..], v, tail);
    }
  }

  /** However the stream is cut, iterating to the end yields exactly the packets encoded into it. */
  lemma EncodedStreamSurvivesChunking(packets: seq<Packet>, v: Version, ops: seq<Op>)
    requires EncodeAll(packets, v).Ok? && Fed(ops) == EncodeAll(packets, v).value
    ensures var e := Steps(Run([], []), ops, v, None); var d := Drain(e.unread, v, None);
            e.yielded + d.packets == NormalAll(packets, v) && d.unread == [] && d.error == None
  {
    NothingToDecode(v);
    hide DecodeSpec, Drain, EncodeAll, NormalAll, Steps;
    AfterTwice([], [], Drain([], v, None));
    RunAgrees([], Run([], []), ops, v, None);
    assert [] + Fed(ops) == EncodeAll(packets, v).value + [];
    StreamRoundTrip(packets, v, []);
  }

  lemma NothingToDecode(v: Version)
    ensures DecodeSpec([], v, None) == Ok(None)
  {
  }
}
