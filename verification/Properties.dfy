/** MQTT 5.0 property blocks (section 2.2.2): the untyped dictionary and its wire form. */
module Properties {
  import opened Util
  import opened Wire

  // Property identifiers.

  const PAYLOAD_FORMAT_INDICATOR := 0x01
  const MESSAGE_EXPIRY_INTERVAL := 0x02
  const CONTENT_TYPE := 0x03
  const RESPONSE_TOPIC := 0x08
  const CORRELATION_DATA := 0x09
  const SUBSCRIPTION_IDENTIFIER := 0x0B
  const SESSION_EXPIRY_INTERVAL := 0x11
  const ASSIGNED_CLIENT_IDENTIFIER := 0x12
  const SERVER_KEEP_ALIVE := 0x13
  const AUTHENTICATION_METHOD := 0x15
  const AUTHENTICATION_DATA := 0x16
  const REQUEST_PROBLEM_INFORMATION := 0x17
  const WILL_DELAY_INTERVAL := 0x18
  const REQUEST_RESPONSE_INFORMATION := 0x19
  const RESPONSE_INFORMATION := 0x1A
  const SERVER_REFERENCE := 0x1C
  const REASON_STRING := 0x1F
  const RECEIVE_MAXIMUM := 0x21
  const TOPIC_ALIAS_MAXIMUM := 0x22
  const TOPIC_ALIAS := 0x23
  const MAXIMUM_QOS := 0x24
  const RETAIN_AVAILABLE := 0x25
  const USER_PROPERTY := 0x26
  const MAXIMUM_PACKET_SIZE := 0x27
  const WILDCARD_SUBSCRIPTION_AVAILABLE := 0x28
  const SUBSCRIPTION_IDENTIFIER_AVAILABLE := 0x29
  const SHARED_SUBSCRIPTION_AVAILABLE := 0x2A

  const PROPERTY_IDS: set<int> :=
    {0x01, 0x02, 0x03, 0x08, 0x09, 0x0B, 0x11, 0x12, 0x13, 0x15, 0x16, 0x17, 0x18, 0x19, 0x1A, 0x1C, 0x1F,
     0x21, 0x22, 0x23, 0x24, 0x25, 0x26, 0x27, 0x28, 0x29, 0x2A}

  predicate WireByte(id: int) {
    id == PAYLOAD_FORMAT_INDICATOR || id == REQUEST_PROBLEM_INFORMATION || id == REQUEST_RESPONSE_INFORMATION ||
    id == MAXIMUM_QOS || id == RETAIN_AVAILABLE || id == WILDCARD_SUBSCRIPTION_AVAILABLE ||
    id == SUBSCRIPTION_IDENTIFIER_AVAILABLE || id == SHARED_SUBSCRIPTION_AVAILABLE
  }

  predicate WireU16(id: int) {
    id == SERVER_KEEP_ALIVE || id == RECEIVE_MAXIMUM || id == TOPIC_ALIAS_MAXIMUM || id == TOPIC_ALIAS
  }

  predicate WireU32(id: int) {
    id == MESSAGE_EXPIRY_INTERVAL || id == SESSION_EXPIRY_INTERVAL || id == WILL_DELAY_INTERVAL ||
    id == MAXIMUM_PACKET_SIZE
  }

  predicate WireVarint(id: int) { id == SUBSCRIPTION_IDENTIFIER }

  predicate WireStr(id: int) {
    id == CONTENT_TYPE || id == RESPONSE_TOPIC || id == ASSIGNED_CLIENT_IDENTIFIER || id == AUTHENTICATION_METHOD ||
    id == REASON_STRING || id == RESPONSE_INFORMATION || id == SERVER_REFERENCE
  }

  predicate WireData(id: int) { id == CORRELATION_DATA || id == AUTHENTICATION_DATA }

  /** The six wire categories and the user property partition the 27 identifiers. */
  lemma WireTypesPartition(id: int)
    ensures id in PROPERTY_IDS <==>
            WireByte(id) || WireU16(id) || WireU32(id) || WireVarint(id) || WireStr(id) || WireData(id) || id == USER_PROPERTY
    ensures (if WireByte(id) then 1 else 0) + (if WireU16(id) then 1 else 0) + (if WireU32(id) then 1 else 0) +
            (if WireVarint(id) then 1 else 0) + (if WireStr(id) then 1 else 0) + (if WireData(id) then 1 else 0) +
            (if id == USER_PROPERTY then 1 else 0) <= 1
  {
  }

  // Values and dictionaries. A string stands for its UTF-8 bytes; a boolean is its integer.

  type Pairs = seq<(Bytes, Bytes)>

  datatype Value = Num(n: int) | Text(bytes: Bytes) | Repeated(pairs: Pairs)

  /** A Python dictionary in insertion order. */
  type Dict = seq<(int, Value)>

  ghost predicate DistinctIds(d: Dict) {
    forall i, j :: 0 <= i < j < |d| ==> d[i].0 != d[j].0
  }

  function EncodePairs(id: byte, pairs: Pairs): Coded<Bytes> {
    if pairs == [] then Ok([])
    else
      var k :- EncodeField(pairs[0].0);
      var v :- EncodeField(pairs[0].1);
      var rest :- EncodePairs(id, pairs[1..]);
      Ok([id] + k + v + rest)
  }

  /** The value of one dictionary entry, without its identifier byte. */
  function EncodeValue(id: int, value: Value): Coded<Bytes> {
    if WireByte(id) && value.Num? then PackU8(value.n)
    else if WireU16(id) && value.Num? then PackU16(value.n)
    else if WireU32(id) && value.Num? then PackU32(value.n)
    else if WireVarint(id) && value.Num? then EncodeVarintSpec(value.n)
    else if (WireStr(id) || WireData(id)) && value.Text? then EncodeField(value.bytes)
    else Err(StructError)
  }

  function EncodeProp(id: int, value: Value): Coded<Bytes> {
    if id == USER_PROPERTY && value.Repeated? then EncodePairs(USER_PROPERTY, value.pairs)
    else
      var body :- EncodeValue(id, value);
      Ok([id] + body)
  }

  function EncodePropsSpec(d: Dict): Coded<Bytes> {
    if d == [] then Ok([])
    else
      var head :- EncodeProp(d[0].0, d[0].1);
      var rest :- EncodePropsSpec(d[1..]);
      Ok(head + rest)
  }

  lemma PrependProp(buf: Bytes, d: Dict, i: nat)
    requires i < |d|
    ensures var head := EncodeProp(d[i].0, d[i].1);
            Prepend(buf, EncodePropsSpec(d[i..])) ==
            if head.Err? then head else Prepend(buf + head.value, EncodePropsSpec(d[i + 1..]))
  {
    assert d[i..][1..] == d[i + 1..];
    var head, rest := EncodeProp(d[i].0, d[i].1), EncodePropsSpec(d[i + 1..]);
    if head.Ok? && rest.Ok? {
      assert buf + (head.value + rest.value) == buf + head.value + rest.value;
    }
  }

  lemma PrependNothing(buf: Bytes, d: Dict)
    ensures Prepend([], EncodePropsSpec(d[0..])) == EncodePropsSpec(d)
    ensures Prepend(buf, EncodePropsSpec(d[|d|..])) == Ok(buf)
  {
    assert d[0..] == d;
    var r := EncodePropsSpec(d);
    if r.Ok? { assert [] + r.value == r.value; }
    assert buf + [] == buf;
  }

  method EncodeProps(d: Dict) returns (r: Coded<Bytes>)
    ensures r == EncodePropsSpec(d)
  {
    var buf: Bytes := [];
    PrependNothing(buf, d);
    for i := 0 to |d|
      invariant EncodePropsSpec(d) == Prepend(buf, EncodePropsSpec(d[i..]))
    {
      PrependProp(buf, d, i);
      var head := EncodeProp(d[i].0, d[i].1);
      if head.Err? {
        return head;
      }
      buf := buf + head.value;
    }
    PrependNothing(buf, d);
    r := Ok(buf);
  }

  function EncodePropsBlock(d: Dict): Coded<Bytes> {
    if d == [] then EncodeVarintSpec(0)
    else
      var raw :- EncodePropsSpec(d);
      var prefix :- EncodeVarintSpec(|raw|);
      Ok(prefix + raw)
  }

  // Decoding.

  type Decoded = map<int, Value>

  /** The entry value at `pos` for a non-repeatable identifier, with its width. */
  function DecodeValue(buf: Bytes, pos: nat, id: int): (r: Coded<(Value, nat)>)
    ensures r.Ok? ==> pos + r.value.1 <= |buf|
  {
    if WireByte(id) then
      var b :- ByteAt(buf, pos);
      Ok((Num(b), 1))
    else if WireU16(id) then
      var n :- UnpackU16(buf, pos);
      Ok((Num(n), 2))
    else if WireU32(id) then
      var n :- UnpackU32(buf, pos);
      Ok((Num(n), 4))
    else if WireVarint(id) then
      var v :- ReadVarint(buf, pos, 4);
      Ok((Num(v.0), v.1))
    else
      var f :- DecodeField(buf, pos);
      Ok((Text(f.0), f.1))
  }

  function PairsSoFar(d: Decoded): Pairs {
    if USER_PROPERTY in d && d[USER_PROPERTY].Repeated? then d[USER_PROPERTY].pairs else []
  }

  /** One turn of the decoding loop: the dictionary and position after the property at `pos`. */
  function DecodeProp(buf: Bytes, pos: nat, d: Decoded): (r: Coded<(Decoded, nat)>)
    ensures r.Ok? ==> pos < r.value.1 <= |buf|
  {
    var id :- ByteAt(buf, pos);
    if id !in PROPERTY_IDS then Err(ValueError)
    else if id == USER_PROPERTY then
      var k :- DecodeField(buf, pos + 1);
      var v :- DecodeField(buf, pos + 1 + k.1);
      Ok((d[USER_PROPERTY := Repeated(PairsSoFar(d) + [(k.0, v.0)])], pos + 1 + k.1 + v.1))
    else
      var v :- DecodeValue(buf, pos + 1, id);
      Ok((d[id as int := v.0], pos + 1 + v.1))
  }

  function DecodePropsSpec(buf: Bytes, pos: nat, end: nat, d: Decoded): Coded<Decoded>
    decreases if pos < end then end - pos else 0
  {
    if pos >= end then Ok(d)
    else
      var next :- DecodeProp(buf, pos, d);
      DecodePropsSpec(buf, next.1, end, next.0)
  }

  /** The dictionary and the bytes consumed, prefix included. */
  function DecodePropsBlockSpec(buf: Bytes, offset: nat): Coded<(Decoded, nat)> {
    var prefix :- ReadVarint(buf, offset, 4);
    var start := offset + prefix.1;
    var d :- DecodePropsSpec(buf, start, start + prefix.0, map[]);
    Ok((d, prefix.1 + prefix.0))
  }

  method DecodePropsBlock(buf: Bytes, offset: nat) returns (r: Coded<(Decoded, nat)>)
    ensures r == DecodePropsBlockSpec(buf, offset)
  {
    hide DecodeProp, ReadVarint;
    var prefix := DecodeVarint(buf, offset);
    if prefix.Err? {
      return Err(prefix.error);
    }
    var start := offset + prefix.value.1;
    var pos, end := start, start + prefix.value.0;
    var d: Decoded := map[];
    while pos < end
      invariant DecodePropsSpec(buf, start, end, map[]) == DecodePropsSpec(buf, pos, end, d)
      decreases if pos < end then end - pos else 0
    {
      var next := DecodeProp(buf, pos, d);
      if next.Err? {
        return Err(next.error);
      }
      d, pos := next.value.0, next.value.1;
    }
    r := Ok((d, prefix.value.1 + prefix.value.0));
  }

  // Round trip of the untyped block.

  /** The dictionary decoding builds from the entries of `d` on top of `acc`. */
  function Load(acc: Decoded, d: Dict): Decoded
    decreases |d|
  {
    if d == [] then acc else Load(acc[d[0].0 := d[0].1], d[1..])
  }

  /** Each entry carries its own kind of value; the user property is present only when it has pairs. */
  predicate Storable(d: Dict) {
    forall i :: 0 <= i < |d| ==> (d[i].0 == USER_PROPERTY ==> d[i].1.Repeated? && d[i].1.pairs != [])
  }

  lemma ValueRoundTrip(id: int, value: Value, buf: Bytes, pos: nat)
    requires id != USER_PROPERTY && EncodeValue(id, value).Ok?
    requires Stands(buf, pos, EncodeValue(id, value).value)
    ensures id in PROPERTY_IDS && 0 <= id < 256
    ensures DecodeValue(buf, pos, id) == Ok((value, |EncodeValue(id, value).value|))
  {
    var bs := EncodeValue(id, value).value;
    if WireByte(id) {
      StandsAt(buf, pos, bs, 0);
    } else if WireU16(id) {
      U16RoundTrip(value.n, buf, pos);
    } else if WireU32(id) {
      U32RoundTrip(value.n, buf, pos);
    } else if WireVarint(id) {
      VarintRoundTrip(value.n, buf, pos);
    } else {
      FieldRoundTrip(value.bytes, buf, pos);
    }
  }

  lemma PropRoundTrip(id: int, value: Value, buf: Bytes, pos: nat, acc: Decoded)
    requires id != USER_PROPERTY && EncodeProp(id, value).Ok?
    requires Stands(buf, pos, EncodeProp(id, value).value)
    ensures DecodeProp(buf, pos, acc) == Ok((acc[id := value], pos + |EncodeProp(id, value).value|))
  {
    var body := EncodeValue(id, value).value;
    assert EncodeProp(id, value).value == [id] + body;
    StandsSplit(buf, pos, [id], body);
    StandsAt(buf, pos, [id], 0);
    ValueRoundTrip(id, value, buf, pos + 1);
  }

  lemma PairRoundTrip(k: Bytes, v: Bytes, buf: Bytes, pos: nat, acc: Decoded)
    requires EncodeField(k).Ok? && EncodeField(v).Ok?
    requires Stands(buf, pos, [USER_PROPERTY] + EncodeField(k).value + EncodeField(v).value)
    ensures DecodeProp(buf, pos, acc) ==
            Ok((acc[USER_PROPERTY := Repeated(PairsSoFar(acc) + [(k, v)])],
                pos + 1 + |EncodeField(k).value| + |EncodeField(v).value|))
  {
    var head: Bytes := [USER_PROPERTY];
    StandsSplit(buf, pos, head + EncodeField(k).value, EncodeField(v).value);
    StandsSplit(buf, pos, head, EncodeField(k).value);
    StandsAt(buf, pos, head, 0);
    FieldRoundTrip(k, buf, pos + 1);
    FieldRoundTrip(v, buf, pos + 1 + |EncodeField(k).value|);
  }

  /** One turn of the loop. */
  lemma DecodeStep(buf: Bytes, pos: nat, end: nat, acc: Decoded, next: Decoded, after: nat)
    requires pos < end && DecodeProp(buf, pos, acc) == Ok((next, after))
    ensures DecodePropsSpec(buf, pos, end, acc) == DecodePropsSpec(buf, after, end, next)
  {
    hide DecodeProp;
  }

  lemma EncodePairsHead(pairs: Pairs)
    requires EncodePairs(USER_PROPERTY, pairs).Ok? && pairs != []
    ensures EncodeField(pairs[0].0).Ok? && EncodeField(pairs[0].1).Ok? && EncodePairs(USER_PROPERTY, pairs[1..]).Ok?
    ensures EncodePairs(USER_PROPERTY, pairs).value ==
            [USER_PROPERTY] + EncodeField(pairs[0].0).value + EncodeField(pairs[0].1).value +
            EncodePairs(USER_PROPERTY, pairs[1..]).value
  {
  }

  /** Appending the first pair and then the others appends them all. */
  lemma AppendPairs(acc: Decoded, pairs: Pairs)
    requires pairs != []
    ensures var next := acc[USER_PROPERTY := Repeated(PairsSoFar(acc) + [(pairs[0].0, pairs[0].1)])];
            next[USER_PROPERTY := Repeated(PairsSoFar(next) + pairs[1..])] ==
            acc[USER_PROPERTY := Repeated(PairsSoFar(acc) + pairs)]
  {
    assert PairsSoFar(acc) + [pairs[0]] + pairs[1..] == PairsSoFar(acc) + pairs;
  }

  /** A run of user properties accumulates its pairs in order. */
  lemma {:induction false} PairsRoundTrip(pairs: Pairs, buf: Bytes, pos: nat, end: nat, acc: Decoded)
    requires EncodePairs(USER_PROPERTY, pairs).Ok? && pairs != []
    requires Stands(buf, pos, EncodePairs(USER_PROPERTY, pairs).value)
    requires pos + |EncodePairs(USER_PROPERTY, pairs).value| <= end
    ensures DecodePropsSpec(buf, pos, end, acc) ==
            DecodePropsSpec(buf, pos + |EncodePairs(USER_PROPERTY, pairs).value|, end,
                            acc[USER_PROPERTY := Repeated(PairsSoFar(acc) + pairs)])
    decreases |pairs|
  {
    hide DecodeProp, DecodePropsSpec, EncodeField, Stands, PairsSoFar;
    EncodePairsHead(pairs);
    var k, v := pairs[0].0, pairs[0].1;
    var head := [USER_PROPERTY] + EncodeField(k).value + EncodeField(v).value;
    StandsSplit(buf, pos, head, EncodePairs(USER_PROPERTY, pairs[1..]).value);
    PairRoundTrip(k, v, buf, pos, acc);
    var next := acc[USER_PROPERTY := Repeated(PairsSoFar(acc) + [(k, v)])];
    DecodeStep(buf, pos, end, acc, next, pos + |head|);
    AppendPairs(acc, pairs);
    if |pairs| > 1 {
      PairsRoundTrip(pairs[1..], buf, pos + |head|, end, next);
    } else {
      assert PairsSoFar(next) + [] == PairsSoFar(next);
      OnePair(acc, next, pairs);
    }
  }

  lemma OnePair(acc: Decoded, next: Decoded, pairs: Pairs)
    requires |pairs| == 1 && next == acc[USER_PROPERTY := Repeated(PairsSoFar(acc) + [(pairs[0].0, pairs[0].1)])]
    ensures next == acc[USER_PROPERTY := Repeated(PairsSoFar(acc) + pairs)]
    ensures EncodePairs(USER_PROPERTY, pairs[1..]) == Ok([])
  {
    assert pairs == [(pairs[0].0, pairs[0].1)];
  }

  lemma EncodePropsHead(d: Dict)
    requires EncodePropsSpec(d).Ok? && d != []
    ensures EncodeProp(d[0].0, d[0].1).Ok? && EncodePropsSpec(d[1..]).Ok?
    ensures EncodePropsSpec(d).value == EncodeProp(d[0].0, d[0].1).value + EncodePropsSpec(d[1..]).value
  {
  }

  lemma EncodePropShape(id: int, value: Value)
    requires EncodeProp(id, value).Ok?
    ensures id == USER_PROPERTY && value.Repeated? ==> EncodeProp(id, value) == EncodePairs(USER_PROPERTY, value.pairs)
    ensures id != USER_PROPERTY ==> |EncodeProp(id, value).value| >= 1
  {
  }

  lemma EntryRoundTrip(id: int, value: Value, buf: Bytes, pos: nat, end: nat, acc: Decoded)
    requires EncodeProp(id, value).Ok? && id !in acc
    requires id == USER_PROPERTY ==> value.Repeated? && value.pairs != []
    requires Stands(buf, pos, EncodeProp(id, value).value) && pos + |EncodeProp(id, value).value| <= end
    ensures DecodePropsSpec(buf, pos, end, acc) ==
            DecodePropsSpec(buf, pos + |EncodeProp(id, value).value|, end, acc[id := value])
  {
    hide *;
    EncodePropShape(id, value);
    if id == USER_PROPERTY {
      NoPairsYet(acc, value.pairs);
      PairsRoundTrip(value.pairs, buf, pos, end, acc);
    } else {
      PropRoundTrip(id, value, buf, pos, acc);
      DecodeStep(buf, pos, end, acc, acc[id := value], pos + |EncodeProp(id, value).value|);
    }
  }

  lemma NoPairsYet(acc: Decoded, pairs: Pairs)
    requires USER_PROPERTY !in acc
    ensures PairsSoFar(acc) + pairs == pairs
  {
  }

  lemma {:induction false} PropsRoundTrip(d: Dict, buf: Bytes, pos: nat, end: nat, acc: Decoded)
    requires EncodePropsSpec(d).Ok? && Storable(d) && DistinctIds(d)
    requires forall i :: 0 <= i < |d| ==> d[i].0 !in acc
    requires Stands(buf, pos, EncodePropsSpec(d).value) && end == pos + |EncodePropsSpec(d).value|
    ensures DecodePropsSpec(buf, pos, end, acc) == Ok(Load(acc, d))
    decreases |d|
  {
    hide EncodePropsSpec, EncodeProp, Stands, DecodePropsSpec, Load;
    LoadHead(acc, d);
    if d == [] {
      PropsOfNothing(buf, pos, acc);
    } else {
      EncodePropsHead(d);
      var (id, value) := d[0];
      var head, rest := EncodeProp(id, value).value, EncodePropsSpec(d[1..]).value;
      StandsSplit(buf, pos, head, rest);
      EntryRoundTrip(id, value, buf, pos, end, acc);
      assert forall i :: 0 <= i < |d| - 1 ==> d[1..][i] == d[i + 1];
      PropsRoundTrip(d[1..], buf, pos + |head|, end, acc[id := value]);
    }
  }

  lemma LoadHead(acc: Decoded, d: Dict)
    ensures Load(acc, d) == if d == [] then acc else Load(acc[d[0].0 := d[0].1], d[1..])
  {
  }

  /** Decoding an encoded block, at any offset and whatever follows, restores the dictionary and consumes the block. */
  lemma BlockRoundTrip(d: Dict, buf: Bytes, pos: nat)
    requires EncodePropsBlock(d).Ok? && Storable(d) && DistinctIds(d)
    requires Stands(buf, pos, EncodePropsBlock(d).value)
    ensures DecodePropsBlockSpec(buf, pos) == Ok((Load(map[], d), |EncodePropsBlock(d).value|))
  {
    hide EncodePropsSpec, DecodePropsSpec, ReadVarint, Stands, DistinctIds, Storable;
    if d == [] {
      VarintRoundTrip(0, buf, pos);
      PropsOfNothing(buf, pos + 1, map[]);
    } else {
      var raw := EncodePropsSpec(d).value;
      var prefix := EncodeVarintSpec(|raw|).value;
      StandsSplit(buf, pos, prefix, raw);
      VarintRoundTrip(|raw|, buf, pos);
      PropsRoundTrip(d, buf, pos + |prefix|, pos + |prefix| + |raw|, map[]);
    }
  }

  lemma PropsOfNothing(buf: Bytes, pos: nat, acc: Decoded)
    ensures DecodePropsSpec(buf, pos, pos, acc) == Ok(acc)
    ensures EncodePropsSpec([]) == Ok([])
  {
  }
}
