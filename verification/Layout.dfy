/**
 * The bytes of a packet as MQTT 3.1.1 and 5.0 lay them down, stated without the encoder: which packets have an encoding, how
 * long it is, and what stands where.
 */
module Layout {
  import opened Util
  import opened Wire
  import opened Properties
  import opened TypedProperties
  import opened Codec

  // Data representation (section 1.5 of MQTT 5.0).

  predicate IsU16(bs: Bytes, n: int) { |bs| == 2 && n == (bs[0] as int) * 256 + bs[1] as int }

  predicate IsU32(bs: Bytes, n: int) {
    |bs| == 4 && n == (bs[0] as int) * 16777216 + (bs[1] as int) * 65536 + (bs[2] as int) * 256 + bs[3] as int
  }

  /** Two length bytes, and the bytes themselves. */
  predicate IsField(bs: Bytes, s: Bytes) { |bs| == 2 + |s| && IsU16(bs[..2], |s|) && bs[2..] == s }

  predicate FieldFits(s: Bytes) { |s| <= 65535 }

  /** One to four bytes of seven bits each, the least significant first, the top bit set on all but the last. */
  predicate ReadsVarint(bs: Bytes, n: int) {
    && 1 <= |bs| <= 4 && bs[|bs| - 1] < 128 && (forall i :: 0 <= i < |bs| - 1 ==> bs[i] >= 128)
    && n == (bs[0] as int) % 128 + (if |bs| > 1 then (bs[1] as int) % 128 * 128 else 0) +
            (if |bs| > 2 then (bs[2] as int) % 128 * 16384 else 0) + (if |bs| > 3 then (bs[3] as int) % 128 * 2097152 else 0)
  }

  function VarintWidth(n: int): nat { if n < 128 then 1 else if n < 16384 then 2 else if n < 2097152 then 3 else 4 }

  /** The shortest such form, which is the one to be sent. */
  predicate IsVarint(bs: Bytes, n: int) { ReadsVarint(bs, n) && |bs| == VarintWidth(n) }

  const LARGEST := 268_435_455

  lemma U16Layout(n: int)
    ensures PackU16(n).Ok? <==> 0 <= n <= 65535
    ensures PackU16(n).Ok? ==> IsU16(PackU16(n).value, n)
  {
  }

  lemma U32Layout(n: int)
    ensures PackU32(n).Ok? <==> 0 <= n <= 4_294_967_295
    ensures PackU32(n).Ok? ==> IsU32(PackU32(n).value, n)
  {
    if 0 <= n <= 4_294_967_295 {
      var hi, lo := n / 65536, n % 65536;
      U16Layout(hi);
      U16Layout(lo);
      assert n == hi * 65536 + lo;
    }
  }

  lemma FieldLayout(s: Bytes)
    ensures EncodeField(s).Ok? <==> FieldFits(s)
    ensures EncodeField(s).Ok? ==> IsField(EncodeField(s).value, s)
  {
    U16Layout(|s|);
    hide PackU16;
  }

  lemma VarintLayout(n: int)
    ensures EncodeVarintSpec(n).Ok? <==> 0 <= n <= LARGEST
    ensures EncodeVarintSpec(n).Ok? ==> IsVarint(EncodeVarintSpec(n).value, n)
  {
    if 0 <= n <= LARGEST {
      hide VarintBytes;
      VarintUnfold(n);
      if n >= 128 {
        var a, b := n % 128, n / 128;
        VarintUnfold(b);
        if b >= 128 {
          var c, d := b % 128, b / 128;
          VarintUnfold(d);
          if d >= 128 {
            VarintUnfold(d / 128);
            FourBytes(a, c, d % 128, d / 128);
          } else {
            ThreeBytes(a, c, d);
          }
        } else {
          TwoBytes(a, b);
        }
      }
    }
  }

  lemma VarintUnfold(n: nat)
    ensures VarintBytes(n) == if n < 128 then [n] else [n % 128 + 128] + VarintBytes(n / 128)
  {
  }

  lemma TwoBytes(a: nat, b: nat)
    requires a < 128 && 1 <= b < 128
    ensures IsVarint([a + 128] + [b], a + 128 * b)
  {
  }

  lemma ThreeBytes(a: nat, b: nat, c: nat)
    requires a < 128 && b < 128 && 1 <= c < 128
    ensures IsVarint([a + 128] + ([b + 128] + [c]), a + 128 * (b + 128 * c))
  {
  }

  lemma FourBytes(a: nat, b: nat, c: nat, d: nat)
    requires a < 128 && b < 128 && c < 128 && 1 <= d < 128
    ensures IsVarint([a + 128] + ([b + 128] + ([c + 128] + [d])), a + 128 * (b + 128 * (c + 128 * d)))
  {
  }

  /** The length of a packet: the bytes that make a varint give its value, and no others do. */
  lemma LengthReadExactly(buf: Bytes, pos: nat)
    ensures var r := ReadLength(buf, pos, 4);
            match r
            case Length(n, w) => pos + w <= |buf| && ReadsVarint(buf[pos..pos + w], n)
            case TooLong => pos + 4 <= |buf| && forall i :: pos <= i < pos + 4 ==> buf[i] >= 128
            case Partial => |buf| < pos + 4 && forall i :: pos <= i < |buf| ==> buf[i] >= 128
  {
    hide ReadLength, ReadsVarint;
    LengthUnfold(buf, pos, 4);
    if pos < |buf| && buf[pos] >= 128 {
      LengthUnfold(buf, pos + 1, 3);
      if pos + 1 < |buf| && buf[pos + 1] >= 128 {
        LengthUnfold(buf, pos + 2, 2);
        if pos + 2 < |buf| && buf[pos + 2] >= 128 {
          LengthUnfold(buf, pos + 3, 1);
          LengthUnfold(buf, pos + 4, 0);
        }
      }
    }
    var r := ReadLength(buf, pos, 4);
    if r.Length? {
      LengthValue(buf[pos..pos + r.width], r.value);
    }
  }

  /** The value of the bytes read, from the last one up. */
  lemma LengthValue(bs: Bytes, n: int)
    requires 1 <= |bs| <= 4 && bs[|bs| - 1] < 128 && forall i :: 0 <= i < |bs| - 1 ==> bs[i] >= 128
    requires |bs| == 1 ==> n == bs[0] as int
    requires |bs| == 2 ==> n == (bs[0] as int) - 128 + 128 * (bs[1] as int)
    requires |bs| == 3 ==> n == (bs[0] as int) - 128 + 128 * ((bs[1] as int) - 128 + 128 * (bs[2] as int))
    requires |bs| == 4 ==> n == (bs[0] as int) - 128 + 128 * ((bs[1] as int) - 128 + 128 * ((bs[2] as int) - 128 + 128 * (bs[3] as int)))
    ensures ReadsVarint(bs, n)
  {
  }

  lemma LengthUnfold(buf: Bytes, pos: nat, budget: nat)
    ensures ReadLength(buf, pos, budget) ==
            if budget == 0 then TooLong
            else if pos >= |buf| then Partial
            else if buf[pos] < 128 then Length(buf[pos] as int, 1)
            else
              match ReadLength(buf, pos + 1, budget - 1)
              case Length(v, w) => Length((buf[pos] as int) - 128 + 128 * v, 1 + w)
              case other => other
  {
  }

  /** A varint anywhere else is read the same way. */
  lemma {:induction false} VarintReadExactly(buf: Bytes, pos: nat, budget: nat)
    ensures var r := ReadLength(buf, pos, budget);
            ReadVarint(buf, pos, budget) == if r.Length? then Ok((r.value, r.width)) else Err(ValueError)
    decreases budget
  {
    if budget > 0 && pos < |buf| {
      VarintReadExactly(buf, pos + 1, budget - 1);
    }
  }

  // Properties (section 2.2.2): the identifiers and their types, in numbers.

  predicate InByte(n: int) { 0 <= n <= 255 }

  /** What a property value takes on the wire, by the identifier that announces it. */
  predicate ValueFits(id: int, v: Value) {
    if id in {1, 23, 25, 36, 37, 40, 41, 42} then v.Num? && InByte(v.n)
    else if id in {19, 33, 34, 35} then v.Num? && 0 <= v.n <= 65535
    else if id in {2, 17, 24, 39} then v.Num? && 0 <= v.n <= 4_294_967_295
    else if id == 11 then v.Num? && 0 <= v.n <= LARGEST
    else if id in {3, 8, 9, 18, 21, 22, 26, 28, 31} then v.Text? && FieldFits(v.bytes)
    else id == 38 && v.Repeated? && forall i :: 0 <= i < |v.pairs| ==> FieldFits(v.pairs[i].0) && FieldFits(v.pairs[i].1)
  }

  ghost predicate IsValue(bs: Bytes, id: int, v: Value) {
    if id in {1, 23, 25, 36, 37, 40, 41, 42} then v.Num? && |bs| == 1 && bs[0] as int == v.n
    else if id in {19, 33, 34, 35} then v.Num? && IsU16(bs, v.n)
    else if id in {2, 17, 24, 39} then v.Num? && IsU32(bs, v.n)
    else if id == 11 then v.Num? && IsVarint(bs, v.n)
    else v.Text? && IsField(bs, v.bytes)
  }

  /** A user property is announced once for each of its pairs. */
  ghost predicate IsPairs(bs: Bytes, pairs: Pairs)
    decreases |pairs|
  {
    if pairs == [] then bs == []
    else exists k, v, rest: Bytes :: IsField(k, pairs[0].0) && IsField(v, pairs[0].1) && IsPairs(rest, pairs[1..]) &&
                                     bs == [38] + k + v + rest
  }

  ghost predicate IsEntry(bs: Bytes, id: int, v: Value) {
    if id == 38 then v.Repeated? && IsPairs(bs, v.pairs) else bs != [] && bs[0] as int == id && IsValue(bs[1..], id, v)
  }

  ghost predicate IsEntries(bs: Bytes, d: Dict)
    decreases |d|
  {
    if d == [] then bs == []
    else exists head, rest: Bytes :: IsEntry(head, d[0].0, d[0].1) && IsEntries(rest, d[1..]) && bs == head + rest
  }

  /** A property block: its length as a varint, and the properties. */
  ghost predicate IsBlock(bs: Bytes, d: Dict) {
    exists length, body: Bytes :: IsVarint(length, |body|) && IsEntries(body, d) && bs == length + body
  }

  function PairsSize(pairs: Pairs): nat {
    if pairs == [] then 0 else 5 + |pairs[0].0| + |pairs[0].1| + PairsSize(pairs[1..])
  }

  function EntrySize(id: int, v: Value): nat {
    if v.Repeated? then PairsSize(v.pairs)
    else if v.Text? then 3 + |v.bytes|
    else if id in {1, 23, 25, 36, 37, 40, 41, 42} then 2
    else if id in {19, 33, 34, 35} then 3
    else if id in {2, 17, 24, 39} then 5
    else 1 + VarintWidth(v.n)
  }

  function EntriesSize(d: Dict): nat { if d == [] then 0 else EntrySize(d[0].0, d[0].1) + EntriesSize(d[1..]) }

  function BlockSize(d: Dict): nat { VarintWidth(EntriesSize(d)) + EntriesSize(d) }

  predicate EntriesFit(d: Dict) { forall i :: 0 <= i < |d| ==> ValueFits(d[i].0, d[i].1) }

  lemma VarintSize(n: int)
    ensures EncodeVarintSpec(n).Ok? ==> |EncodeVarintSpec(n).value| == VarintWidth(n)
  {
    VarintLayout(n);
    hide EncodeVarintSpec;
  }

  lemma {:induction false} PairsLayout(pairs: Pairs)
    ensures EncodePairs(38, pairs).Ok? <==> forall i :: 0 <= i < |pairs| ==> FieldFits(pairs[i].0) && FieldFits(pairs[i].1)
    ensures EncodePairs(38, pairs).Ok? ==>
              IsPairs(EncodePairs(38, pairs).value, pairs) && |EncodePairs(38, pairs).value| == PairsSize(pairs)
  {
    if pairs != [] {
      PairsLayout(pairs[1..]);
      FieldLayout(pairs[0].0);
      FieldLayout(pairs[0].1);
      assert forall i :: 1 <= i < |pairs| ==> pairs[i] == pairs[1..][i - 1];
      hide EncodeField, IsField, FieldFits;
      if EncodePairs(38, pairs).Ok? {
        FieldSize(pairs[0].0);
        FieldSize(pairs[0].1);
      }
    }
  }

  lemma FieldSize(s: Bytes)
    requires EncodeField(s).Ok?
    ensures |EncodeField(s).value| == 2 + |s|
  {
  }

  lemma ValueLayout(id: int, v: Value)
    requires id != 38
    ensures EncodeValue(id, v).Ok? <==> ValueFits(id, v)
    ensures EncodeValue(id, v).Ok? ==>
              InByte(id) && IsValue(EncodeValue(id, v).value, id, v) && 1 + |EncodeValue(id, v).value| == EntrySize(id, v)
  {
    if v.Num? {
      U16Layout(v.n);
      U32Layout(v.n);
      VarintLayout(v.n);
    } else if v.Text? {
      FieldLayout(v.bytes);
    }
    hide PackU16, PackU32, EncodeField, EncodeVarintSpec, FieldFits, ReadsVarint;
  }

  lemma EntryLayout(id: int, v: Value)
    requires id == 38 ==> v.Repeated?
    ensures EncodeProp(id, v).Ok? <==> ValueFits(id, v)
    ensures EncodeProp(id, v).Ok? ==> IsEntry(EncodeProp(id, v).value, id, v) && |EncodeProp(id, v).value| == EntrySize(id, v)
  {
    if id == 38 {
      PairsLayout(v.pairs);
    } else {
      ValueLayout(id, v);
      if EncodeValue(id, v).Ok? {
        assert ([id] + EncodeValue(id, v).value)[1..] == EncodeValue(id, v).value;
      }
    }
    hide EncodeValue, EncodePairs, IsValue, IsPairs, PairsSize;
  }

  lemma {:induction false} EntriesLayout(d: Dict)
    requires Storable(d)
    ensures EncodePropsSpec(d).Ok? <==> EntriesFit(d)
    ensures EncodePropsSpec(d).Ok? ==> IsEntries(EncodePropsSpec(d).value, d) && |EncodePropsSpec(d).value| == EntriesSize(d)
  {
    if d != [] {
      assert Storable(d[1..]) && (forall i :: 1 <= i < |d| ==> d[i] == d[1..][i - 1]);
      EntriesLayout(d[1..]);
      EntryLayout(d[0].0, d[0].1);
      hide EncodeProp, IsEntry, EntrySize, ValueFits;
    }
  }

  lemma BlockLayout(d: Dict)
    requires Storable(d)
    ensures EncodePropsBlock(d).Ok? <==> EntriesFit(d) && EntriesSize(d) <= LARGEST
    ensures EncodePropsBlock(d).Ok? ==> IsBlock(EncodePropsBlock(d).value, d) && |EncodePropsBlock(d).value| == BlockSize(d)
  {
    EntriesLayout(d);
    VarintLayout(EntriesSize(d));
    hide EncodePropsSpec, EncodeVarintSpec, IsEntries, EntriesFit, Storable, ReadsVarint;
    if d == [] {
      NoEntries();
      var block := EncodePropsBlock(d).value;
      assert block + [] == block && IsVarint(block, 0);
    }
  }

  lemma NoEntries()
    ensures EntriesFit([]) && IsEntries([], []) && EntriesSize([]) == 0
  {
  }

  // The properties of each packet, with the identifiers of section 2.2.2.2 in numbers.

  function Number(id: int, o: Option<int>): Dict { if o.Some? then [(id, Num(o.value))] else [] }

  function Truth(id: int, o: Option<bool>): Dict { if o.Some? then [(id, Num(if o.value then 1 else 0))] else [] }

  function Content(id: int, o: Option<Bytes>): Dict { if o.Some? then [(id, Text(o.value))] else [] }

  function Users(pairs: Pairs): Dict { if pairs == [] then [] else [(38, Repeated(pairs))] }

  function Concat(parts: seq<Dict>): Dict { if parts == [] then [] else parts[0] + Concat(parts[1..]) }

  function PartOf(row: (int, Option<Value>)): Dict { if row.1.Some? then [(row.0, row.1.value)] else [] }

  lemma {:induction false} PresentIsConcat(rows: Rows, parts: seq<Dict>)
    requires |rows| == |parts|
    requires forall i :: 0 <= i < |rows| ==> parts[i] == PartOf(rows[i])
    ensures Present(rows) == Concat(parts)
  {
    if rows != [] {
      PresentIsConcat(rows[1..], parts[1..]);
    }
  }

  function ConnectDict(p: ConnectProperties): Dict {
    Concat([Number(17, p.sessionExpiryInterval), Number(33, p.receiveMaximum), Number(39, p.maximumPacketSize),
            Number(34, p.topicAliasMaximum), Truth(25, p.requestResponseInformation),
            Truth(23, p.requestProblemInformation), Content(21, p.authenticationMethod),
            Content(22, p.authenticationData), Users(p.userProperties)])
  }

  lemma ConnectEntries(p: ConnectProperties)
    ensures Present(ConnectRows(p)) == ConnectDict(p) && Storable(ConnectDict(p))
  {
    var parts := [Number(17, p.sessionExpiryInterval), Number(33, p.receiveMaximum), Number(39, p.maximumPacketSize),
                  Number(34, p.topicAliasMaximum), Truth(25, p.requestResponseInformation),
                  Truth(23, p.requestProblemInformation), Content(21, p.authenticationMethod),
                  Content(22, p.authenticationData), Users(p.userProperties)];
    PresentIsConcat(ConnectRows(p), parts);
    hide Present, Concat, Load, ConnectFrom, Storable, DistinctIds;
    ConnectLawful(p);
    PresentKeys(ConnectRows(p));
  }

  function WillDict(p: WillProperties): Dict {
    Concat([Number(24, p.willDelayInterval), Number(1, p.payloadFormatIndicator), Number(2, p.messageExpiryInterval),
            Content(3, p.contentType), Content(8, p.responseTopic), Content(9, p.correlationData),
            Users(p.userProperties)])
  }

  lemma WillEntries(p: WillProperties)
    ensures Present(WillRows(p)) == WillDict(p) && Storable(WillDict(p))
  {
    var parts := [Number(24, p.willDelayInterval), Number(1, p.payloadFormatIndicator),
                  Number(2, p.messageExpiryInterval), Content(3, p.contentType), Content(8, p.responseTopic),
                  Content(9, p.correlationData), Users(p.userProperties)];
    PresentIsConcat(WillRows(p), parts);
    hide Present, Concat, Load, WillFrom, Storable, DistinctIds;
    WillLawful(p);
    PresentKeys(WillRows(p));
  }

  function ConnAckParts(p: ConnAckProperties): (parts: seq<Dict>)
    ensures |parts| == 17
  {
    [Number(17, p.sessionExpiryInterval), Number(33, p.receiveMaximum), Number(36, p.maximumQos),
     Truth(37, p.retainAvailable), Number(39, p.maximumPacketSize), Content(18, p.assignedClientIdentifier),
     Number(34, p.topicAliasMaximum), Content(31, p.reasonString), Truth(40, p.wildcardSubscriptionAvailable),
     Truth(41, p.subscriptionIdentifierAvailable), Truth(42, p.sharedSubscriptionAvailable),
     Number(19, p.serverKeepAlive), Content(26, p.responseInformation), Content(28, p.serverReference),
     Content(21, p.authenticationMethod), Content(22, p.authenticationData), Users(p.userProperties)]
  }

  function ConnAckDict(p: ConnAckProperties): Dict { Concat(ConnAckParts(p)) }

  lemma ConnAckFirstParts(p: ConnAckProperties, i: nat)
    requires i < 6
    ensures |ConnAckRows(p)| == 17 && ConnAckParts(p)[i] == PartOf(ConnAckRows(p)[i])
  {
  }

  lemma ConnAckMiddleParts(p: ConnAckProperties, i: nat)
    requires 6 <= i < 12
    ensures |ConnAckRows(p)| == 17 && ConnAckParts(p)[i] == PartOf(ConnAckRows(p)[i])
  {
  }

  lemma ConnAckLastParts(p: ConnAckProperties, i: nat)
    requires 12 <= i < 17
    ensures |ConnAckRows(p)| == 17 && ConnAckParts(p)[i] == PartOf(ConnAckRows(p)[i])
  {
  }

  lemma ConnAckEntries(p: ConnAckProperties)
    ensures Present(ConnAckRows(p)) == ConnAckDict(p) && Storable(ConnAckDict(p))
  {
    hide Present, Concat, WellKeyed, UserPairs, Storable, DistinctIds, ConnAckRows, ConnAckParts;
    ConnAckFirstParts(p, 0);
    forall i | 0 <= i < 17
      ensures ConnAckParts(p)[i] == PartOf(ConnAckRows(p)[i])
    {
      if i < 6 {
        ConnAckFirstParts(p, i);
      } else if i < 12 {
        ConnAckMiddleParts(p, i);
      } else {
        ConnAckLastParts(p, i);
      }
    }
    PresentIsConcat(ConnAckRows(p), ConnAckParts(p));
    ConnAckKeyed(p);
    PresentKeys(ConnAckRows(p));
  }

  function PublishDict(p: PublishProperties): Dict {
    Concat([Number(1, p.payloadFormatIndicator), Number(2, p.messageExpiryInterval), Number(35, p.topicAlias),
            Content(8, p.responseTopic), Content(9, p.correlationData), Number(11, p.subscriptionIdentifier),
            Content(3, p.contentType), Users(p.userProperties)])
  }

  lemma PublishEntries(p: PublishProperties)
    ensures Present(PublishRows(p)) == PublishDict(p) && Storable(PublishDict(p))
  {
    var parts := [Number(1, p.payloadFormatIndicator), Number(2, p.messageExpiryInterval), Number(35, p.topicAlias),
                  Content(8, p.responseTopic), Content(9, p.correlationData), Number(11, p.subscriptionIdentifier),
                  Content(3, p.contentType), Users(p.userProperties)];
    PresentIsConcat(PublishRows(p), parts);
    hide Present, Concat, Load, PublishFrom, Storable, DistinctIds;
    PublishLawful(p);
    PresentKeys(PublishRows(p));
  }

  function PubAckDict(p: PubAckProperties): Dict {
    Concat([Content(31, p.reasonString), Users(p.userProperties)])
  }

  lemma PubAckEntries(p: PubAckProperties)
    ensures Present(PubAckRows(p)) == PubAckDict(p) && Storable(PubAckDict(p))
  {
    var parts := [Content(31, p.reasonString), Users(p.userProperties)];
    PresentIsConcat(PubAckRows(p), parts);
    hide Present, Concat, Load, PubAckFrom, Storable, DistinctIds;
    PubAckLawful(p);
    PresentKeys(PubAckRows(p));
  }

  function SubscribeDict(p: SubscribeProperties): Dict {
    Concat([Number(11, p.subscriptionIdentifier), Users(p.userProperties)])
  }

  lemma SubscribeEntries(p: SubscribeProperties)
    ensures Present(SubscribeRows(p)) == SubscribeDict(p) && Storable(SubscribeDict(p))
  {
    var parts := [Number(11, p.subscriptionIdentifier), Users(p.userProperties)];
    PresentIsConcat(SubscribeRows(p), parts);
    hide Present, Concat, Load, SubscribeFrom, Storable, DistinctIds;
    SubscribeLawful(p);
    PresentKeys(SubscribeRows(p));
  }

  function SubAckDict(p: SubAckProperties): Dict {
    Concat([Content(31, p.reasonString), Users(p.userProperties)])
  }

  lemma SubAckEntries(p: SubAckProperties)
    ensures Present(SubAckRows(p)) == SubAckDict(p) && Storable(SubAckDict(p))
  {
    var parts := [Content(31, p.reasonString), Users(p.userProperties)];
    PresentIsConcat(SubAckRows(p), parts);
    hide Present, Concat, Load, SubAckFrom, Storable, DistinctIds;
    SubAckLawful(p);
    PresentKeys(SubAckRows(p));
  }

  function UnsubscribeDict(p: UnsubscribeProperties): Dict {
    Concat([Users(p.userProperties)])
  }

  lemma UnsubscribeEntries(p: UnsubscribeProperties)
    ensures Present(UnsubscribeRows(p)) == UnsubscribeDict(p) && Storable(UnsubscribeDict(p))
  {
    var parts := [Users(p.userProperties)];
    PresentIsConcat(UnsubscribeRows(p), parts);
    hide Present, Concat, Load, UnsubscribeFrom, Storable, DistinctIds;
    UnsubscribeLawful(p);
    PresentKeys(UnsubscribeRows(p));
  }

  function UnsubAckDict(p: UnsubAckProperties): Dict {
    Concat([Content(31, p.reasonString), Users(p.userProperties)])
  }

  lemma UnsubAckEntries(p: UnsubAckProperties)
    ensures Present(UnsubAckRows(p)) == UnsubAckDict(p) && Storable(UnsubAckDict(p))
  {
    var parts := [Content(31, p.reasonString), Users(p.userProperties)];
    PresentIsConcat(UnsubAckRows(p), parts);
    hide Present, Concat, Load, UnsubAckFrom, Storable, DistinctIds;
    UnsubAckLawful(p);
    PresentKeys(UnsubAckRows(p));
  }

  function DisconnectDict(p: DisconnectProperties): Dict {
    Concat([Number(17, p.sessionExpiryInterval), Content(31, p.reasonString), Content(28, p.serverReference),
            Users(p.userProperties)])
  }

  lemma DisconnectEntries(p: DisconnectProperties)
    ensures Present(DisconnectRows(p)) == DisconnectDict(p) && Storable(DisconnectDict(p))
  {
    var parts := [Number(17, p.sessionExpiryInterval), Content(31, p.reasonString), Content(28, p.serverReference),
                  Users(p.userProperties)];
    PresentIsConcat(DisconnectRows(p), parts);
    hide Present, Concat, Load, DisconnectFrom, Storable, DistinctIds;
    DisconnectLawful(p);
    PresentKeys(DisconnectRows(p));
  }

  function AuthDict(p: AuthProperties): Dict {
    Concat([Content(21, p.authenticationMethod), Content(22, p.authenticationData), Content(31, p.reasonString),
            Users(p.userProperties)])
  }

  lemma AuthEntries(p: AuthProperties)
    ensures Present(AuthRows(p)) == AuthDict(p) && Storable(AuthDict(p))
  {
    var parts := [Content(21, p.authenticationMethod), Content(22, p.authenticationData), Content(31, p.reasonString),
                  Users(p.userProperties)];
    PresentIsConcat(AuthRows(p), parts);
    hide Present, Concat, Load, AuthFrom, Storable, DistinctIds;
    AuthLawful(p);
    PresentKeys(AuthRows(p));
  }

  // Packets (chapter 3).

  function DictOf<T>(o: Option<T>, dict: T -> Dict): Dict { if o.Some? then dict(o.value) else [] }

  /** Version 3.1.1 has no property blocks. */
  ghost predicate IsV5Block(bs: Bytes, v: Version, d: Dict) { if v.V5? then IsBlock(bs, d) else bs == [] }

  function V5BlockSize(v: Version, d: Dict): nat { if v.V5? then BlockSize(d) else 0 }

  predicate V5Fits(v: Version, d: Dict) { v.V5? ==> EntriesFit(d) }

  lemma TypedLayout<T>(props: Option<T>, rows: T -> Rows, d: Dict)
    requires d == if props.Some? then Present(rows(props.value)) else []
    requires Storable(d)
    ensures EncodeTyped(props, rows).Ok? ==>
              EntriesFit(d) && IsBlock(EncodeTyped(props, rows).value, d) && |EncodeTyped(props, rows).value| == BlockSize(d)
    ensures EntriesFit(d) && EntriesSize(d) <= LARGEST ==> EncodeTyped(props, rows).Ok?
  {
    BlockLayout(d);
    hide EncodePropsBlock, EntriesFit, EntriesSize, BlockSize, IsBlock, Present, Storable;
    assert props.None? ==> EncodeTyped(props, rows) == EncodePropsBlock([]) by { EmptyBlock(); }
  }

  lemma EmptyBlock()
    ensures EncodePropsBlock([]) == EncodeVarintSpec(0)
  {
  }

  lemma V5Layout<T>(v: Version, props: Option<T>, rows: T -> Rows, d: Dict)
    requires d == if props.Some? then Present(rows(props.value)) else []
    requires Storable(d)
    ensures EncodeV5(v, props, rows).Ok? ==>
              && V5Fits(v, d) && IsV5Block(EncodeV5(v, props, rows).value, v, d)
              && |EncodeV5(v, props, rows).value| == V5BlockSize(v, d)
    ensures V5Fits(v, d) && V5BlockSize(v, d) <= LARGEST ==> EncodeV5(v, props, rows).Ok?
  {
    TypedLayout(props, rows, d);
    hide EncodeTyped, EntriesFit, EntriesSize, IsBlock, Present, Storable, VarintWidth;
  }

  /** An optional field that is absent takes no bytes. */
  ghost predicate IsOptional(bs: Bytes, o: Option<Bytes>) { if o.Some? then IsField(bs, o.value) else bs == [] }

  predicate OptionalFits(o: Option<Bytes>) { o.Some? ==> FieldFits(o.value) }

  function OptionalSize(o: Option<Bytes>): nat { if o.Some? then 2 + |o.value| else 0 }

  lemma OptionalLayout(o: Option<Bytes>)
    ensures EncodeOptional(o).Ok? <==> OptionalFits(o)
    ensures EncodeOptional(o).Ok? ==> IsOptional(EncodeOptional(o).value, o) && |EncodeOptional(o).value| == OptionalSize(o)
  {
    if o.Some? {
      FieldLayout(o.value);
    }
  }

  /** The first byte: the type in the upper half, the flags the standard fixes in the lower one. */
  function FirstByte(p: Packet): int {
    match p
    case Connect(_, _, _, _, _, _, _) => 0x10
    case ConnAck(_, _, _) => 0x20
    case Publish(_, _, qos, retain, dup, _, _) => 0x30 + (if dup then 8 else 0) + 2 * qos + (if retain then 1 else 0)
    case Ack(PubAck, _, _, _) => 0x40
    case Ack(PubRec, _, _, _) => 0x50
    case Ack(PubRel, _, _, _) => 0x62
    case Ack(PubComp, _, _, _) => 0x70
    case Subscribe(_, _, _) => 0x82
    case SubAck(_, _, _) => 0x90
    case Unsubscribe(_, _, _) => 0xA2
    case UnsubAck(_, _, _) => 0xB0
    case PingReq => 0xC0
    case PingResp => 0xD0
    case Disconnect(_, _) => 0xE0
    case Auth(_, _) => 0xF0
  }

  // CONNECT

  ghost predicate IsWill(bs: Bytes, will: Option<Will>, v: Version) {
    match will
    case None => bs == []
    case Some(w) =>
      exists props, topic, payload: Bytes ::
        IsV5Block(props, v, DictOf(w.properties, WillDict)) && IsField(topic, w.topic) && IsField(payload, w.payload) &&
        bs == props + topic + payload
  }

  predicate WillFits(will: Option<Will>, v: Version) {
    will.Some? ==>
      V5Fits(v, DictOf(will.value.properties, WillDict)) && FieldFits(will.value.topic) && FieldFits(will.value.payload)
  }

  function WillSize(will: Option<Will>, v: Version): nat {
    if will.None? then 0
    else V5BlockSize(v, DictOf(will.value.properties, WillDict)) + 2 + |will.value.topic| + 2 + |will.value.payload|
  }

  lemma WillLayout(will: Option<Will>, v: Version)
    ensures EncodeWill(will, v).Ok? ==>
              WillFits(will, v) && IsWill(EncodeWill(will, v).value, will, v) && |EncodeWill(will, v).value| == WillSize(will, v)
    ensures WillFits(will, v) && WillSize(will, v) <= LARGEST ==> EncodeWill(will, v).Ok?
  {
    if will.Some? {
      var w := will.value;
      var d := DictOf(w.properties, WillDict);
      hide *;
      WillDictIs(w.properties);
      V5Layout(v, w.properties, WillRows, d);
      FieldLayout(w.topic);
      FieldLayout(w.payload);
      WillForm(w, v);
      if EncodeWill(will, v).Ok? {
        FieldSize(w.topic);
        FieldSize(w.payload);
        IsWillFrom(w, v, EncodeV5(v, w.properties, WillRows).value, EncodeField(w.topic).value, EncodeField(w.payload).value);
      }
    } else {
      NoWill(v);
    }
  }

  lemma NoWill(v: Version)
    ensures EncodeWill(None, v) == Ok([]) && WillFits(None, v) && IsWill([], None, v) && WillSize(None, v) == 0
  {
  }

  lemma WillForm(w: Will, v: Version)
    ensures var a, b, c := EncodeV5(v, w.properties, WillRows), EncodeField(w.topic), EncodeField(w.payload);
            && (EncodeWill(Some(w), v).Ok? <==> a.Ok? && b.Ok? && c.Ok?)
            && (a.Ok? && b.Ok? && c.Ok? ==> EncodeWill(Some(w), v).value == a.value + (b.value + c.value))
    ensures WillFits(Some(w), v) <==>
            V5Fits(v, DictOf(w.properties, WillDict)) && FieldFits(w.topic) && FieldFits(w.payload)
    ensures WillSize(Some(w), v) == V5BlockSize(v, DictOf(w.properties, WillDict)) + 4 + |w.topic| + |w.payload|
  {
    hide EncodeV5, EncodeField, V5Fits, FieldFits, V5BlockSize, DictOf, WillDict, WillRows;
  }

  lemma IsWillFrom(w: Will, v: Version, a: Bytes, b: Bytes, c: Bytes)
    requires IsV5Block(a, v, DictOf(w.properties, WillDict)) && IsField(b, w.topic) && IsField(c, w.payload)
    ensures IsWill(a + (b + c), Some(w), v)
  {
    hide IsV5Block, IsField, DictOf, WillDict;
    assert a + (b + c) == a + b + c;
  }

  lemma WillDictIs(props: Option<WillProperties>)
    ensures var d := DictOf(props, WillDict); d == (if props.Some? then Present(WillRows(props.value)) else []) && Storable(d)
  {
    if props.Some? {
      WillEntries(props.value);
    }
  }

  function ConnectFlagByte(p: Packet): int
    requires p.Connect?
  {
    (if p.cleanSession then 2 else 0) + (if p.will.Some? then 4 + 8 * p.will.value.qos + (if p.will.value.retain then 32 else 0) else 0) +
    (if p.password.Some? then 64 else 0) + (if p.username.Some? then 128 else 0)
  }

  /** The protocol name MQTT, the level 4 or 5, the flags, and what they announce. */
  ghost predicate IsConnect(b: Bytes, p: Packet, v: Version)
    requires p.Connect?
  {
    exists alive, props, client, will, user, pass: Bytes ::
      && IsU16(alive, p.keepalive) && IsV5Block(props, v, DictOf(p.connectProperties, ConnectDict)) && IsField(client, p.clientId)
      && IsWill(will, p.will, v) && IsOptional(user, p.username) && IsOptional(pass, p.password)
      && b == [0, 4, 77, 81, 84, 84, if v.V5? then 5 else 4, ConnectFlagByte(p)] + alive + props + client + will + user + pass
  }

  predicate ConnectFits(p: Packet, v: Version)
    requires p.Connect?
  {
    && 0 <= p.keepalive <= 65535 && V5Fits(v, DictOf(p.connectProperties, ConnectDict)) && FieldFits(p.clientId)
    && WillFits(p.will, v) && OptionalFits(p.username) && OptionalFits(p.password)
  }

  function ConnectSize(p: Packet, v: Version): nat
    requires p.Connect?
  {
    10 + V5BlockSize(v, DictOf(p.connectProperties, ConnectDict)) + 2 + |p.clientId| + WillSize(p.will, v) +
    OptionalSize(p.username) + OptionalSize(p.password)
  }

  lemma ConnectDictIs(props: Option<ConnectProperties>)
    ensures var d := DictOf(props, ConnectDict); d == (if props.Some? then Present(ConnectRows(props.value)) else []) && Storable(d)
  {
    if props.Some? {
      ConnectEntries(props.value);
    }
  }

  lemma NameLayout()
    ensures EncodeField(MQTT) == Ok([0, 4, 77, 81, 84, 84])
  {
    assert [0, 4] + MQTT == [0, 4, 77, 81, 84, 84];
  }

  lemma FlagByte(p: Packet)
    requires p.Connect?
    ensures ConnectFlags(p) == ConnectFlagByte(p)
  {
  }

  lemma ConnectLayout(p: Packet, v: Version)
    requires p.Connect?
    ensures EncodeConnect(p, v).Ok? ==>
              ConnectFits(p, v) && IsConnect(EncodeConnect(p, v).value, p, v) && |EncodeConnect(p, v).value| == ConnectSize(p, v)
    ensures ConnectFits(p, v) && ConnectSize(p, v) <= LARGEST ==> EncodeConnect(p, v).Ok?
  {
    hide *;
    NameLayout();
    FlagByte(p);
    U16Layout(p.keepalive);
    ConnectDictIs(p.connectProperties);
    V5Layout(v, p.connectProperties, ConnectRows, DictOf(p.connectProperties, ConnectDict));
    FieldLayout(p.clientId);
    WillLayout(p.will, v);
    OptionalLayout(p.username);
    OptionalLayout(p.password);
    ConnectJoined(p, v);
  }

  /** The encoder's pieces in their places. */
  lemma ConnectJoined(p: Packet, v: Version)
    requires p.Connect? && EncodeField(MQTT) == Ok([0, 4, 77, 81, 84, 84]) && ConnectFlags(p) == ConnectFlagByte(p)
    requires PackU16(p.keepalive).Ok? <==> 0 <= p.keepalive <= 65535
    requires PackU16(p.keepalive).Ok? ==> IsU16(PackU16(p.keepalive).value, p.keepalive)
    requires var d := DictOf(p.connectProperties, ConnectDict); var e := EncodeV5(v, p.connectProperties, ConnectRows);
             && (e.Ok? ==> V5Fits(v, d) && IsV5Block(e.value, v, d) && |e.value| == V5BlockSize(v, d))
             && (V5Fits(v, d) && V5BlockSize(v, d) <= LARGEST ==> e.Ok?)
    requires EncodeField(p.clientId).Ok? <==> FieldFits(p.clientId)
    requires EncodeField(p.clientId).Ok? ==> IsField(EncodeField(p.clientId).value, p.clientId)
    requires var e := EncodeWill(p.will, v);
             && (e.Ok? ==> WillFits(p.will, v) && IsWill(e.value, p.will, v) && |e.value| == WillSize(p.will, v))
             && (WillFits(p.will, v) && WillSize(p.will, v) <= LARGEST ==> e.Ok?)
    requires EncodeOptional(p.username).Ok? <==> OptionalFits(p.username)
    requires var e := EncodeOptional(p.username);
             e.Ok? ==> IsOptional(e.value, p.username) && |e.value| == OptionalSize(p.username)
    requires EncodeOptional(p.password).Ok? <==> OptionalFits(p.password)
    requires var e := EncodeOptional(p.password);
             e.Ok? ==> IsOptional(e.value, p.password) && |e.value| == OptionalSize(p.password)
    ensures EncodeConnect(p, v).Ok? ==>
              ConnectFits(p, v) && IsConnect(EncodeConnect(p, v).value, p, v) && |EncodeConnect(p, v).value| == ConnectSize(p, v)
    ensures ConnectFits(p, v) && ConnectSize(p, v) <= LARGEST ==> EncodeConnect(p, v).Ok?
  {
    hide EncodeField, PackU16, EncodeV5, EncodeWill, EncodeOptional, ConnectFlags, ConnectFlagByte, IsV5Block, IsWill, IsOptional,
         V5Fits, FieldFits, WillFits, OptionalFits, V5BlockSize, WillSize, OptionalSize, DictOf, IsU16;
    if EncodeConnect(p, v).Ok? {
      var alive, props, client := PackU16(p.keepalive).value, EncodeV5(v, p.connectProperties, ConnectRows).value,
                                  EncodeField(p.clientId).value;
      var will, user, pass := EncodeWill(p.will, v).value, EncodeOptional(p.username).value, EncodeOptional(p.password).value;
      var level: Bytes := [if v.V5? then 5 else 4, ConnectFlags(p)];
      var name: Bytes := [0, 4, 77, 81, 84, 84];
      assert EncodeConnect(p, v).value == name + (level + (alive + (props + (client + (will + (user + pass))))));
      assert name + level == [0, 4, 77, 81, 84, 84, if v.V5? then 5 else 4, ConnectFlags(p)];
      assert name + (level + (alive + (props + (client + (will + (user + pass)))))) ==
             name + level + alive + props + client + will + user + pass;
      assert |alive| == 2 by { U16Layout(p.keepalive); TwoBytesLong(alive, p.keepalive); }
    }
  }

  lemma TwoBytesLong(bs: Bytes, n: int)
    requires IsU16(bs, n)
    ensures |bs| == 2
  {
  }

  // The other packets: what each property object stands for.

  lemma ConnAckDictIs(props: Option<ConnAckProperties>)
    ensures var d := DictOf(props, ConnAckDict); d == (if props.Some? then Present(ConnAckRows(props.value)) else []) && Storable(d)
  {
    if props.Some? {
      ConnAckEntries(props.value);
    }
  }

  lemma PublishDictIs(props: Option<PublishProperties>)
    ensures var d := DictOf(props, PublishDict); d == (if props.Some? then Present(PublishRows(props.value)) else []) && Storable(d)
  {
    if props.Some? {
      PublishEntries(props.value);
    }
  }

  lemma PubAckDictIs(props: Option<PubAckProperties>)
    ensures var d := DictOf(props, PubAckDict); d == (if props.Some? then Present(PubAckRows(props.value)) else []) && Storable(d)
  {
    if props.Some? {
      PubAckEntries(props.value);
    }
  }

  lemma SubscribeDictIs(props: Option<SubscribeProperties>)
    ensures var d := DictOf(props, SubscribeDict); d == (if props.Some? then Present(SubscribeRows(props.value)) else []) && Storable(d)
  {
    if props.Some? {
      SubscribeEntries(props.value);
    }
  }

  lemma SubAckDictIs(props: Option<SubAckProperties>)
    ensures var d := DictOf(props, SubAckDict); d == (if props.Some? then Present(SubAckRows(props.value)) else []) && Storable(d)
  {
    if props.Some? {
      SubAckEntries(props.value);
    }
  }

  lemma UnsubscribeDictIs(props: Option<UnsubscribeProperties>)
    ensures var d := DictOf(props, UnsubscribeDict); d == (if props.Some? then Present(UnsubscribeRows(props.value)) else []) && Storable(d)
  {
    if props.Some? {
      UnsubscribeEntries(props.value);
    }
  }

  lemma UnsubAckDictIs(props: Option<UnsubAckProperties>)
    ensures var d := DictOf(props, UnsubAckDict); d == (if props.Some? then Present(UnsubAckRows(props.value)) else []) && Storable(d)
  {
    if props.Some? {
      UnsubAckEntries(props.value);
    }
  }

  lemma DisconnectDictIs(props: Option<DisconnectProperties>)
    ensures var d := DictOf(props, DisconnectDict); d == (if props.Some? then Present(DisconnectRows(props.value)) else []) && Storable(d)
  {
    if props.Some? {
      DisconnectEntries(props.value);
    }
  }

  lemma AuthDictIs(props: Option<AuthProperties>)
    ensures var d := DictOf(props, AuthDict); d == (if props.Some? then Present(AuthRows(props.value)) else []) && Storable(d)
  {
    if props.Some? {
      AuthEntries(props.value);
    }
  }

  // CONNACK

  ghost predicate IsConnAck(b: Bytes, p: Packet, v: Version)
    requires p.ConnAck?
  {
    && |b| >= 2 && b[0] == (if p.sessionPresent then 1 else 0) && b[1] as int == p.returnCode
    && IsV5Block(b[2..], v, DictOf(p.connAckProperties, ConnAckDict))
  }

  lemma ConnAckLayout(p: Packet, v: Version)
    requires p.ConnAck?
    ensures var d := DictOf(p.connAckProperties, ConnAckDict); var e := EncodeConnAck(p, v);
            && (e.Ok? ==> InByte(p.returnCode) && V5Fits(v, d) && IsConnAck(e.value, p, v) && |e.value| == 2 + V5BlockSize(v, d))
            && (InByte(p.returnCode) && V5Fits(v, d) && V5BlockSize(v, d) <= LARGEST ==> e.Ok?)
  {
    var d := DictOf(p.connAckProperties, ConnAckDict);
    ConnAckDictIs(p.connAckProperties);
    V5Layout(v, p.connAckProperties, ConnAckRows, d);
    hide EncodeV5, IsV5Block, V5Fits, V5BlockSize, DictOf, Present, Storable;
    if EncodeConnAck(p, v).Ok? {
      assert EncodeConnAck(p, v).value[2..] == EncodeV5(v, p.connAckProperties, ConnAckRows).value;
    }
  }

  // PUBLISH

  /** The identifier stands in the packet exactly at QoS 1 and 2. */
  ghost predicate IsPublishId(bs: Bytes, p: Packet)
    requires p.Publish?
  {
    if p.qos == 0 then bs == [] else p.publishId.Some? && IsU16(bs, p.publishId.value)
  }

  ghost predicate IsPublish(b: Bytes, p: Packet, v: Version)
    requires p.Publish?
  {
    exists topic, id, props: Bytes ::
      && IsField(topic, p.topic) && IsPublishId(id, p) && IsV5Block(props, v, DictOf(p.publishProperties, PublishDict))
      && b == topic + id + props + p.payload
  }

  predicate PublishFits(p: Packet, v: Version)
    requires p.Publish?
  {
    && FieldFits(p.topic) && V5Fits(v, DictOf(p.publishProperties, PublishDict))
    && (p.qos > 0 ==> p.publishId.Some? && 0 <= p.publishId.value <= 65535)
  }

  function PublishSize(p: Packet, v: Version): nat
    requires p.Publish?
  {
    2 + |p.topic| + (if p.qos > 0 then 2 else 0) + V5BlockSize(v, DictOf(p.publishProperties, PublishDict)) + |p.payload|
  }

  lemma PublishLayout(p: Packet, v: Version)
    requires p.Publish?
    ensures EncodePublish(p, v).Ok? ==>
              PublishFits(p, v) && IsPublish(EncodePublish(p, v).value, p, v) && |EncodePublish(p, v).value| == PublishSize(p, v)
    ensures PublishFits(p, v) && PublishSize(p, v) <= LARGEST ==> EncodePublish(p, v).Ok?
    ensures FieldFits(p.topic) && p.qos > 0 && p.publishId.None? ==> EncodePublish(p, v) == Err(ValueError)
  {
    var d := DictOf(p.publishProperties, PublishDict);
    hide EncodeV5, EncodeField, PackU16, IsV5Block, IsField, V5Fits, FieldFits, V5BlockSize, DictOf, Present, Storable, IsU16;
    PublishDictIs(p.publishProperties);
    V5Layout(v, p.publishProperties, PublishRows, d);
    FieldLayout(p.topic);
    if p.publishId.Some? {
      U16Layout(p.publishId.value);
    }
    if EncodePublish(p, v).Ok? {
      FieldSize(p.topic);
      var topic, props := EncodeField(p.topic).value, EncodeV5(v, p.publishProperties, PublishRows).value;
      var id := if p.qos == 0 then [] else PackU16(p.publishId.value).value;
      PublishIdLong(id, p);
      PublishJoined(topic, id, props, p.payload);
    }
  }

  lemma PublishIdLong(id: Bytes, p: Packet)
    requires p.Publish? && IsPublishId(id, p)
    ensures |id| == if p.qos > 0 then 2 else 0
  {
  }

  lemma PublishJoined(topic: Bytes, id: Bytes, props: Bytes, payload: Bytes)
    ensures topic + (id + (props + payload)) == topic + id + props + payload
  {
  }

  // PUBACK, PUBREC, PUBREL, PUBCOMP

  /** The reason code and the properties are there only on version 5.0, and only if one of them says anything. */
  ghost predicate IsAck(b: Bytes, p: Packet, v: Version)
    requires p.Ack?
  {
    && |b| >= 2 && IsU16(b[..2], p.packetId)
    && if v.V5? && (p.reasonCode != 0 || p.ackProperties.Some?) then
         |b| >= 3 && b[2] as int == p.reasonCode && IsBlock(b[3..], DictOf(p.ackProperties, PubAckDict))
       else |b| == 2
  }

  predicate AckFits(p: Packet, v: Version)
    requires p.Ack?
  {
    && 0 <= p.packetId <= 65535
    && (v.V5? && (p.reasonCode != 0 || p.ackProperties.Some?) ==>
          InByte(p.reasonCode) && EntriesFit(DictOf(p.ackProperties, PubAckDict)))
  }

  function AckSize(p: Packet, v: Version): nat
    requires p.Ack?
  {
    2 + if v.V5? && (p.reasonCode != 0 || p.ackProperties.Some?) then 1 + BlockSize(DictOf(p.ackProperties, PubAckDict)) else 0
  }

  lemma AckLayout(p: Packet, v: Version)
    requires p.Ack?
    ensures EncodeAck(p, v).Ok? ==>
              AckFits(p, v) && IsAck(EncodeAck(p, v).value, p, v) && |EncodeAck(p, v).value| == AckSize(p, v)
    ensures AckFits(p, v) && AckSize(p, v) <= LARGEST ==> EncodeAck(p, v).Ok?
  {
    var d := DictOf(p.ackProperties, PubAckDict);
    PubAckDictIs(p.ackProperties);
    TypedLayout(p.ackProperties, PubAckRows, d);
    U16Layout(p.packetId);
    BlockHolds(d);
    hide EncodeTyped, PackU16, IsBlock, EntriesFit, EntriesSize, BlockSize, DictOf, Present, Storable;
    if EncodeAck(p, v).Ok? {
      var id, b := PackU16(p.packetId).value, EncodeAck(p, v).value;
      TwoBytesLong(id, p.packetId);
      assert b[..2] == id;
      assert |b| > 2 ==> b[3..] == EncodeTyped(p.ackProperties, PubAckRows).value;
    }
  }

  lemma BlockHolds(d: Dict)
    ensures EntriesSize(d) <= BlockSize(d)
  {
  }

  // SUBSCRIBE, SUBACK, UNSUBSCRIBE, UNSUBACK

  function OptionByte(s: SubscriptionRequest, v: Version): byte {
    if v.V5? then s.qos + (if s.noLocal then 4 else 0) + (if s.retainAsPublished then 8 else 0) + 16 * s.retainHandling else s.qos
  }

  ghost predicate IsRequests(bs: Bytes, subs: seq<SubscriptionRequest>, v: Version)
    decreases |subs|
  {
    if subs == [] then bs == []
    else exists topic, rest: Bytes ::
           IsField(topic, subs[0].topicFilter) && IsRequests(rest, subs[1..], v) && bs == topic + [OptionByte(subs[0], v)] + rest
  }

  predicate RequestsFit(subs: seq<SubscriptionRequest>) { forall i :: 0 <= i < |subs| ==> FieldFits(subs[i].topicFilter) }

  function RequestsSize(subs: seq<SubscriptionRequest>): nat {
    if subs == [] then 0 else 3 + |subs[0].topicFilter| + RequestsSize(subs[1..])
  }

  lemma OptionLayout(s: SubscriptionRequest, v: Version)
    ensures EncodeRequest(s, v).Ok? <==> FieldFits(s.topicFilter)
    ensures EncodeRequest(s, v).Ok? ==>
              EncodeField(s.topicFilter).Ok? && EncodeRequest(s, v).value == EncodeField(s.topicFilter).value + [OptionByte(s, v)]
  {
    FieldLayout(s.topicFilter);
    hide EncodeField, FieldFits;
  }

  lemma {:induction false} RequestsLayout(subs: seq<SubscriptionRequest>, v: Version)
    ensures EncodeRequests(subs, v).Ok? <==> RequestsFit(subs)
    ensures EncodeRequests(subs, v).Ok? ==>
              IsRequests(EncodeRequests(subs, v).value, subs, v) && |EncodeRequests(subs, v).value| == RequestsSize(subs)
  {
    if subs != [] {
      RequestsLayout(subs[1..], v);
      OptionLayout(subs[0], v);
      FieldLayout(subs[0].topicFilter);
      assert forall i :: 1 <= i < |subs| ==> subs[i] == subs[1..][i - 1];
      hide EncodeRequest, EncodeField, IsField, FieldFits, OptionByte;
      if EncodeRequests(subs, v).Ok? {
        FieldSize(subs[0].topicFilter);
      }
    }
  }

  ghost predicate IsSubscribe(b: Bytes, p: Packet, v: Version)
    requires p.Subscribe?
  {
    && |b| >= 2 && IsU16(b[..2], p.packetId)
    && exists props, requests: Bytes ::
         IsV5Block(props, v, DictOf(p.subscribeProperties, SubscribeDict)) && IsRequests(requests, p.subscriptions, v) &&
         b[2..] == props + requests
  }

  lemma SubscribeLayout(p: Packet, v: Version)
    requires p.Subscribe?
    ensures var d := DictOf(p.subscribeProperties, SubscribeDict); var e := EncodeSubscribeSpec(p, v);
            var fits := 0 <= p.packetId <= 65535 && V5Fits(v, d) && RequestsFit(p.subscriptions);
            && (e.Ok? ==> fits && IsSubscribe(e.value, p, v) && |e.value| == 2 + V5BlockSize(v, d) + RequestsSize(p.subscriptions))
            && (fits && V5BlockSize(v, d) <= LARGEST ==> e.Ok?)
  {
    var d := DictOf(p.subscribeProperties, SubscribeDict);
    SubscribeDictIs(p.subscribeProperties);
    V5Layout(v, p.subscribeProperties, SubscribeRows, d);
    U16Layout(p.packetId);
    RequestsLayout(p.subscriptions, v);
    hide EncodeV5, PackU16, EncodeRequests, IsV5Block, V5Fits, V5BlockSize, DictOf, Present, Storable, IsRequests, RequestsFit,
         RequestsSize;
    if EncodeSubscribeSpec(p, v).Ok? {
      var id, b := PackU16(p.packetId).value, EncodeSubscribeSpec(p, v).value;
      TwoBytesLong(id, p.packetId);
      assert b[..2] == id && b[2..] == EncodeV5(v, p.subscribeProperties, SubscribeRows).value + EncodeRequests(p.subscriptions, v).value;
    }
  }

  /** One byte for each code. */
  ghost predicate IsCodes(bs: Bytes, codes: seq<int>) { |bs| == |codes| && forall i :: 0 <= i < |bs| ==> bs[i] as int == codes[i] }

  predicate CodesFit(codes: seq<int>) { forall i :: 0 <= i < |codes| ==> InByte(codes[i]) }

  lemma {:induction false} CodesLayout(codes: seq<int>)
    ensures CodesToBytes(codes).Ok? <==> CodesFit(codes)
    ensures CodesToBytes(codes).Ok? ==> IsCodes(CodesToBytes(codes).value, codes)
  {
    if codes != [] {
      CodesLayout(codes[1..]);
      assert forall i :: 1 <= i < |codes| ==> codes[i] == codes[1..][i - 1];
    }
  }

  ghost predicate IsSubAck(b: Bytes, p: Packet, v: Version)
    requires p.SubAck?
  {
    && |b| >= 2 && IsU16(b[..2], p.packetId)
    && exists props, codes: Bytes ::
         IsV5Block(props, v, DictOf(p.subAckProperties, SubAckDict)) && IsCodes(codes, p.returnCodes) && b[2..] == props + codes
  }

  lemma SubAckLayout(p: Packet, v: Version)
    requires p.SubAck?
    ensures var d := DictOf(p.subAckProperties, SubAckDict); var e := EncodeSubAck(p, v);
            var fits := 0 <= p.packetId <= 65535 && V5Fits(v, d) && CodesFit(p.returnCodes);
            && (e.Ok? ==> fits && IsSubAck(e.value, p, v) && |e.value| == 2 + V5BlockSize(v, d) + |p.returnCodes|)
            && (fits && V5BlockSize(v, d) <= LARGEST ==> e.Ok?)
  {
    var d := DictOf(p.subAckProperties, SubAckDict);
    SubAckDictIs(p.subAckProperties);
    V5Layout(v, p.subAckProperties, SubAckRows, d);
    U16Layout(p.packetId);
    CodesLayout(p.returnCodes);
    hide EncodeV5, PackU16, CodesToBytes, IsV5Block, V5Fits, V5BlockSize, DictOf, Present, Storable, CodesFit;
    if EncodeSubAck(p, v).Ok? {
      var id, b := PackU16(p.packetId).value, EncodeSubAck(p, v).value;
      TwoBytesLong(id, p.packetId);
      assert b[..2] == id && b[2..] == EncodeV5(v, p.subAckProperties, SubAckRows).value + CodesToBytes(p.returnCodes).value;
    }
  }

  ghost predicate IsFields(bs: Bytes, fields: seq<Bytes>)
    decreases |fields|
  {
    if fields == [] then bs == []
    else exists head, rest: Bytes :: IsField(head, fields[0]) && IsFields(rest, fields[1..]) && bs == head + rest
  }

  predicate AllFit(fields: seq<Bytes>) { forall i :: 0 <= i < |fields| ==> FieldFits(fields[i]) }

  function FieldsSize(fields: seq<Bytes>): nat { if fields == [] then 0 else 2 + |fields[0]| + FieldsSize(fields[1..]) }

  lemma {:induction false} FieldsLayout(fields: seq<Bytes>)
    ensures EncodeFields(fields).Ok? <==> AllFit(fields)
    ensures EncodeFields(fields).Ok? ==>
              IsFields(EncodeFields(fields).value, fields) && |EncodeFields(fields).value| == FieldsSize(fields)
  {
    if fields != [] {
      FieldsLayout(fields[1..]);
      FieldLayout(fields[0]);
      assert forall i :: 1 <= i < |fields| ==> fields[i] == fields[1..][i - 1];
      hide EncodeField, IsField, FieldFits;
      if EncodeFields(fields).Ok? {
        FieldSize(fields[0]);
      }
    }
  }

  ghost predicate IsUnsubscribe(b: Bytes, p: Packet, v: Version)
    requires p.Unsubscribe?
  {
    && |b| >= 2 && IsU16(b[..2], p.packetId)
    && exists props, topics: Bytes ::
         IsV5Block(props, v, DictOf(p.unsubscribeProperties, UnsubscribeDict)) && IsFields(topics, p.topicFilters) &&
         b[2..] == props + topics
  }

  lemma UnsubscribeLayout(p: Packet, v: Version)
    requires p.Unsubscribe?
    ensures var d := DictOf(p.unsubscribeProperties, UnsubscribeDict); var e := EncodeUnsubscribeSpec(p, v);
            var fits := 0 <= p.packetId <= 65535 && V5Fits(v, d) && AllFit(p.topicFilters);
            && (e.Ok? ==> fits && IsUnsubscribe(e.value, p, v) && |e.value| == 2 + V5BlockSize(v, d) + FieldsSize(p.topicFilters))
            && (fits && V5BlockSize(v, d) <= LARGEST ==> e.Ok?)
  {
    var d := DictOf(p.unsubscribeProperties, UnsubscribeDict);
    UnsubscribeDictIs(p.unsubscribeProperties);
    V5Layout(v, p.unsubscribeProperties, UnsubscribeRows, d);
    U16Layout(p.packetId);
    FieldsLayout(p.topicFilters);
    hide EncodeV5, PackU16, EncodeFields, IsV5Block, V5Fits, V5BlockSize, DictOf, Present, Storable, IsFields, AllFit, FieldsSize;
    if EncodeUnsubscribeSpec(p, v).Ok? {
      var id, b := PackU16(p.packetId).value, EncodeUnsubscribeSpec(p, v).value;
      TwoBytesLong(id, p.packetId);
      assert b[..2] == id && b[2..] == EncodeV5(v, p.unsubscribeProperties, UnsubscribeRows).value + EncodeFields(p.topicFilters).value;
    }
  }

  /** Version 3.1.1 has nothing behind the identifier. */
  ghost predicate IsUnsubAck(b: Bytes, p: Packet, v: Version)
    requires p.UnsubAck?
  {
    && |b| >= 2 && IsU16(b[..2], p.packetId)
    && if v.V5? then
         exists props, codes: Bytes ::
           IsBlock(props, DictOf(p.unsubAckProperties, UnsubAckDict)) && IsCodes(codes, p.reasonCodes) && b[2..] == props + codes
       else |b| == 2
  }

  lemma UnsubAckLayout(p: Packet, v: Version)
    requires p.UnsubAck?
    ensures var d := DictOf(p.unsubAckProperties, UnsubAckDict); var e := EncodeUnsubAck(p, v);
            var fits := 0 <= p.packetId <= 65535 && (v.V5? ==> EntriesFit(d) && CodesFit(p.reasonCodes));
            && (e.Ok? ==> fits && IsUnsubAck(e.value, p, v) && |e.value| == 2 + if v.V5? then BlockSize(d) + |p.reasonCodes| else 0)
            && (fits && V5BlockSize(v, d) <= LARGEST ==> e.Ok?)
  {
    var d := DictOf(p.unsubAckProperties, UnsubAckDict);
    UnsubAckDictIs(p.unsubAckProperties);
    V5Layout(v, p.unsubAckProperties, UnsubAckRows, d);
    U16Layout(p.packetId);
    CodesLayout(p.reasonCodes);
    hide EncodeV5, PackU16, CodesToBytes, IsBlock, EntriesFit, BlockSize, DictOf, Present, Storable, CodesFit;
    if EncodeUnsubAck(p, v).Ok? {
      var id, b := PackU16(p.packetId).value, EncodeUnsubAck(p, v).value;
      TwoBytesLong(id, p.packetId);
      assert b[..2] == id;
      assert v.V5? ==> b[2..] == EncodeV5(v, p.unsubAckProperties, UnsubAckRows).value + CodesToBytes(p.reasonCodes).value;
    }
  }

  // DISCONNECT, AUTH

  ghost predicate IsDisconnect(b: Bytes, p: Packet, v: Version)
    requires p.Disconnect?
  {
    if v.V5? && (p.reasonCode != 0 || p.disconnectProperties.Some?) then
      |b| >= 1 && b[0] as int == p.reasonCode && IsBlock(b[1..], DictOf(p.disconnectProperties, DisconnectDict))
    else b == []
  }

  lemma DisconnectLayout(p: Packet, v: Version)
    requires p.Disconnect?
    ensures var d := DictOf(p.disconnectProperties, DisconnectDict); var e := EncodeDisconnect(p, v);
            var long := v.V5? && (p.reasonCode != 0 || p.disconnectProperties.Some?);
            var fits := long ==> InByte(p.reasonCode) && EntriesFit(d);
            && (e.Ok? ==> fits && IsDisconnect(e.value, p, v) && |e.value| == if long then 1 + BlockSize(d) else 0)
            && (fits && (long ==> BlockSize(d) <= LARGEST) ==> e.Ok?)
  {
    var d := DictOf(p.disconnectProperties, DisconnectDict);
    DisconnectDictIs(p.disconnectProperties);
    TypedLayout(p.disconnectProperties, DisconnectRows, d);
    BlockHolds(d);
    hide EncodeTyped, IsBlock, EntriesFit, EntriesSize, BlockSize, DictOf, Present, Storable;
    if EncodeDisconnect(p, v).Ok? {
      var b := EncodeDisconnect(p, v).value;
      assert |b| > 0 ==> b[1..] == EncodeTyped(p.disconnectProperties, DisconnectRows).value;
    }
  }

  ghost predicate IsAuth(b: Bytes, p: Packet)
    requires p.Auth?
  {
    |b| >= 1 && b[0] as int == p.reasonCode && IsBlock(b[1..], DictOf(p.authProperties, AuthDict))
  }

  lemma AuthLayout(p: Packet)
    requires p.Auth?
    ensures var d := DictOf(p.authProperties, AuthDict); var e := EncodeAuth(p); var fits := InByte(p.reasonCode) && EntriesFit(d);
            && (e.Ok? ==> fits && IsAuth(e.value, p) && |e.value| == 1 + BlockSize(d))
            && (fits && BlockSize(d) <= LARGEST ==> e.Ok?)
  {
    var d := DictOf(p.authProperties, AuthDict);
    AuthDictIs(p.authProperties);
    TypedLayout(p.authProperties, AuthRows, d);
    BlockHolds(d);
    hide EncodeTyped, IsBlock, EntriesFit, EntriesSize, BlockSize, DictOf, Present, Storable;
    if EncodeAuth(p).Ok? {
      assert EncodeAuth(p).value[1..] == EncodeTyped(p.authProperties, AuthRows).value;
    }
  }

  // Whole packets.

  /** What stands behind the fixed header. */
  ghost predicate IsBody(b: Bytes, p: Packet, v: Version) {
    match p
    case Connect(_, _, _, _, _, _, _) => IsConnect(b, p, v)
    case ConnAck(_, _, _) => IsConnAck(b, p, v)
    case Publish(_, _, _, _, _, _, _) => IsPublish(b, p, v)
    case Ack(_, _, _, _) => IsAck(b, p, v)
    case Subscribe(_, _, _) => IsSubscribe(b, p, v)
    case SubAck(_, _, _) => IsSubAck(b, p, v)
    case Unsubscribe(_, _, _) => IsUnsubscribe(b, p, v)
    case UnsubAck(_, _, _) => IsUnsubAck(b, p, v)
    case PingReq => b == []
    case PingResp => b == []
    case Disconnect(_, _) => IsDisconnect(b, p, v)
    case Auth(_, _) => IsAuth(b, p)
  }

  /** Every part of the packet is within the range of its representation. */
  predicate Fits(p: Packet, v: Version) {
    match p
    case Connect(_, _, _, _, _, _, _) => ConnectFits(p, v)
    case ConnAck(_, code, props) => InByte(code) && V5Fits(v, DictOf(props, ConnAckDict))
    case Publish(_, _, _, _, _, _, _) => PublishFits(p, v)
    case Ack(_, _, _, _) => AckFits(p, v)
    case Subscribe(id, subs, props) => 0 <= id <= 65535 && V5Fits(v, DictOf(props, SubscribeDict)) && RequestsFit(subs)
    case SubAck(id, codes, props) => 0 <= id <= 65535 && V5Fits(v, DictOf(props, SubAckDict)) && CodesFit(codes)
    case Unsubscribe(id, topics, props) => 0 <= id <= 65535 && V5Fits(v, DictOf(props, UnsubscribeDict)) && AllFit(topics)
    case UnsubAck(id, codes, props) =>
      0 <= id <= 65535 && (v.V5? ==> EntriesFit(DictOf(props, UnsubAckDict)) && CodesFit(codes))
    case PingReq => true
    case PingResp => true
    case Disconnect(code, props) =>
      v.V5? && (code != 0 || props.Some?) ==> InByte(code) && EntriesFit(DictOf(props, DisconnectDict))
    case Auth(code, props) => InByte(code) && EntriesFit(DictOf(props, AuthDict))
  }

  function BodySize(p: Packet, v: Version): nat {
    match p
    case Connect(_, _, _, _, _, _, _) => ConnectSize(p, v)
    case ConnAck(_, _, props) => 2 + V5BlockSize(v, DictOf(props, ConnAckDict))
    case Publish(_, _, _, _, _, _, _) => PublishSize(p, v)
    case Ack(_, _, _, _) => AckSize(p, v)
    case Subscribe(_, subs, props) => 2 + V5BlockSize(v, DictOf(props, SubscribeDict)) + RequestsSize(subs)
    case SubAck(_, codes, props) => 2 + V5BlockSize(v, DictOf(props, SubAckDict)) + |codes|
    case Unsubscribe(_, topics, props) => 2 + V5BlockSize(v, DictOf(props, UnsubscribeDict)) + FieldsSize(topics)
    case UnsubAck(_, codes, props) => 2 + if v.V5? then BlockSize(DictOf(props, UnsubAckDict)) + |codes| else 0
    case PingReq => 0
    case PingResp => 0
    case Disconnect(code, props) =>
      if v.V5? && (code != 0 || props.Some?) then 1 + BlockSize(DictOf(props, DisconnectDict)) else 0
    case Auth(_, props) => 1 + BlockSize(DictOf(props, AuthDict))
  }

  lemma BodyLayout(p: Packet, v: Version)
    ensures EncodeBody(p, v).Ok? ==>
              Fits(p, v) && IsBody(EncodeBody(p, v).value, p, v) && |EncodeBody(p, v).value| == BodySize(p, v)
    ensures Fits(p, v) && BodySize(p, v) <= LARGEST ==> EncodeBody(p, v).Ok?
  {
    hide EncodeConnect, EncodeConnAck, EncodePublish, EncodeAck, EncodeSubscribeSpec, EncodeSubAck, EncodeUnsubscribeSpec,
         EncodeUnsubAck, EncodeDisconnect, EncodeAuth, IsConnect, IsConnAck, IsPublish, IsAck, IsSubscribe, IsSubAck, IsUnsubscribe,
         IsUnsubAck, IsDisconnect, IsAuth, ConnectFits, PublishFits, AckFits, RequestsFit, CodesFit, AllFit, EntriesFit,
         ConnectSize, PublishSize, AckSize, RequestsSize, FieldsSize, BlockSize, DictOf;
    match p
    case Connect(_, _, _, _, _, _, _) => ConnectLayout(p, v);
    case ConnAck(_, _, _) => ConnAckLayout(p, v);
    case Publish(_, _, _, _, _, _, _) => PublishLayout(p, v);
    case Ack(_, _, _, _) => AckLayout(p, v);
    case Subscribe(_, _, _) => SubscribeLayout(p, v);
    case SubAck(_, _, _) => SubAckLayout(p, v);
    case Unsubscribe(_, _, _) => UnsubscribeLayout(p, v);
    case UnsubAck(_, _, _) => UnsubAckLayout(p, v);
    case PingReq =>
    case PingResp =>
    case Disconnect(_, _) => DisconnectLayout(p, v);
    case Auth(_, _) => AuthLayout(p);
  }

  /** A packet has an encoding if and only if each part of it fits its representation and the whole is not too long. */
  lemma EncodesExactly(p: Packet, v: Version)
    ensures Encode(p, v).Ok? <==> Fits(p, v) && BodySize(p, v) <= LARGEST
  {
    BodyLayout(p, v);
    hide EncodeBody, Fits, BodySize, IsBody, VarintBytes, TypeOf, FlagsOf;
  }

  /** The encoding is the first byte the standard gives, the length of the rest, and the body laid out as the standard says. */
  lemma EncodedLayout(p: Packet, v: Version)
    requires Encode(p, v).Ok?
    ensures var bs := Encode(p, v).value; var k := VarintWidth(BodySize(p, v));
            && |bs| == 1 + k + BodySize(p, v) && bs[0] as int == FirstByte(p)
            && IsVarint(bs[1..1 + k], BodySize(p, v)) && IsBody(bs[1 + k..], p, v)
  {
    BodyLayout(p, v);
    FirstByteIs(p);
    hide EncodeBody, Fits, BodySize, IsBody, EncodeVarintSpec, TypeOf, FlagsOf, FirstByte, ReadsVarint;
    var body := EncodeBody(p, v).value;
    VarintLayout(|body|);
    var length := EncodeVarintSpec(|body|).value;
    var first: int := TypeOf(p) * 16 + FlagsOf(p);
    var bs := Encode(p, v).value;
    assert bs == [first] + length + body;
    assert bs[1..1 + |length|] == length && bs[1 + |length|..] == body;
  }

  lemma FirstByteIs(p: Packet)
    ensures TypeOf(p) * 16 + FlagsOf(p) == FirstByte(p)
  {
  }

  // What is read from bytes that need not come from the encoder.

  /** The fixed header: a packet is there once its length and all its bytes are; one over the limit is refused at once. */
  lemma HeaderReadExactly(buf: Bytes, v: Version, maxSize: Option<int>, w: nat, n: nat)
    requires 1 <= w < |buf| && ReadsVarint(buf[1..1 + w], n)
    ensures var total := 1 + w + n; var r := DecodeSpec(buf, v, maxSize);
            if maxSize.Some? && total > maxSize.value then r == Err(PacketTooLarge(total, maxSize.value))
            else if |buf| < total then r == Ok(None)
            else
              var p := DecodeBody(buf[0] / 16, buf[0] % 16, buf[1 + w..total], v);
              r == if p.Ok? then Ok(Some((p.value, total))) else Err(p.error)
  {
    hide ReadLength, DecodeBody, ReadsVarint;
    LengthIs(buf, w, n);
  }

  /** Without a length there is no packet: more bytes are awaited, until four of them have their top bit set. */
  lemma NoLength(buf: Bytes, v: Version, maxSize: Option<int>)
    requires forall i :: 1 <= i <= 4 && i < |buf| ==> buf[i] >= 128
    ensures DecodeSpec(buf, v, maxSize) == if |buf| < 5 then Ok(None) else Err(ValueError)
  {
    LengthReadExactly(buf, 1);
    hide ReadLength, DecodeBody;
  }

  /** A prefix of the bytes makes a varint in one way at most. */
  lemma LengthIs(buf: Bytes, w: nat, n: nat)
    requires 1 <= w < |buf| && ReadsVarint(buf[1..1 + w], n)
    ensures ReadLength(buf, 1, 4) == Length(n, w)
  {
    var bs := buf[1..1 + w];
    assert forall i :: 0 <= i < w ==> bs[i] == buf[1 + i];
    VarintValue(bs, n);
    hide ReadLength, ReadsVarint;
    LengthUnfold(buf, 1, 4);
    if w > 1 {
      LengthUnfold(buf, 2, 3);
      if w > 2 {
        LengthUnfold(buf, 3, 2);
        if w > 3 {
          LengthUnfold(buf, 4, 1);
        }
      }
    }
  }

  lemma VarintValue(bs: Bytes, n: int)
    requires ReadsVarint(bs, n)
    ensures 1 <= |bs| <= 4 && bs[|bs| - 1] < 128 && forall i :: 0 <= i < |bs| - 1 ==> bs[i] >= 128
    ensures |bs| == 1 ==> n == bs[0] as int
    ensures |bs| == 2 ==> n == (bs[0] as int) - 128 + 128 * (bs[1] as int)
    ensures |bs| == 3 ==> n == (bs[0] as int) - 128 + 128 * ((bs[1] as int) - 128 + 128 * (bs[2] as int))
    ensures |bs| == 4 ==> n == (bs[0] as int) - 128 + 128 * ((bs[1] as int) - 128 + 128 * ((bs[2] as int) - 128 + 128 * (bs[3] as int)))
  {
  }

  /** PUBACK, PUBREC, PUBREL and PUBCOMP: the reason code is optional, and the properties behind it too. */
  lemma AckReadExactly(b: Bytes, v: Version, flags: nat, t: nat)
    requires 4 <= t <= 7
    ensures |b| < 2 ==> DecodeBody(t, flags, b, v) == Err(ValueError)
    ensures |b| >= 2 && (v.V311? || |b| <= 3) ==>
              var kind := if t == 4 then PubAck else if t == 5 then PubRec else if t == 6 then PubRel else PubComp;
              DecodeBody(t, flags, b, v) ==
              Ok(Ack(kind, (b[0] as int) * 256 + b[1] as int, if v.V5? && |b| == 3 then b[2] as int else 0, None))
    ensures |b| == 4 && v.V5? && b[3] == 0 ==>
              var kind := if t == 4 then PubAck else if t == 5 then PubRec else if t == 6 then PubRel else PubComp;
              DecodeBody(t, flags, b, v) == Ok(Ack(kind, (b[0] as int) * 256 + b[1] as int, b[2] as int, None))
  {
  }

  /** DISCONNECT and AUTH may end after their reason code, DISCONNECT before it. */
  lemma EndReadExactly(b: Bytes, v: Version, flags: nat)
    ensures v.V311? || b == [] ==> DecodeBody(14, flags, b, v) == Ok(Disconnect(0, None))
    ensures v.V5? && |b| == 1 ==> DecodeBody(14, flags, b, v) == Ok(Disconnect(b[0] as int, None))
    ensures b == [] ==> DecodeBody(15, flags, b, v) == Err(ValueError)
    ensures |b| == 1 ==> DecodeBody(15, flags, b, v) == Ok(Auth(b[0] as int, None))
    ensures DecodeBody(12, flags, b, v) == Ok(PingReq) && DecodeBody(13, flags, b, v) == Ok(PingResp)
    ensures DecodeBody(0, flags, b, v) == Err(ValueError)
  {
  }

  lemma ConnAckReadExactly(b: Bytes, v: Version, flags: nat)
    ensures |b| < 2 ==> DecodeBody(2, flags, b, v) == Err(ValueError)
    ensures |b| >= 2 && (v.V311? || |b| == 2) ==> DecodeBody(2, flags, b, v) == Ok(ConnAck(b[0] % 2 == 1, b[1] as int, None))
  {
  }

  /** A CONNECT is refused unless it names MQTT, its level is 3.1.1 or 5.0 and its will has a QoS of at most 2. */
  lemma ConnectRefused(b: Bytes, v: Version, flags: nat)
    ensures var r := DecodeBody(1, flags, b, v);
            && (r.Ok? ==> |b| > 7 && b[..6] == [0, 4, 77, 81, 84, 84] && (b[6] == 4 || b[6] == 5) && b[7] / 8 % 4 != 3)
            && (|b| > 7 && b[..6] == [0, 4, 77, 81, 84, 84] && !((b[6] == 4 || b[6] == 5) && b[7] / 8 % 4 != 3) ==>
                  r == Err(ValueError))
  {
    var name := DecodeField(b, 0);
    FieldRead(b, 0);
    hide DecodeConnectRest;
    if name.Ok? && name.value.0 == MQTT {
      assert |b[2..2 + name.value.1 - 2]| == 4;
      assert b[2..6] == [77, 81, 84, 84] && b[2] == b[2..6][0] && b[3] == b[2..6][1] && b[4] == b[2..6][2] && b[5] == b[2..6][3];
    }
    if |b| > 7 && b[..6] == [0, 4, 77, 81, 84, 84] {
      assert b[0] == b[..6][0] && b[1] == b[..6][1] && b[2..6] == b[..6][2..] == MQTT;
    }
  }

  /** A body without its whole identifier, and a filter without its options byte, are refused. */
  lemma ShortRefused(b: Bytes, v: Version, flags: nat, pos: nat)
    ensures |b| < 2 ==> DecodeBody(8, flags, b, v) == DecodeBody(9, flags, b, v) == Err(ValueError)
    ensures |b| < 2 ==> DecodeBody(10, flags, b, v) == DecodeBody(11, flags, b, v) == Err(ValueError)
    ensures var topic := DecodeField(b, 0);
            flags / 2 % 4 > 0 && (topic.Ok? ==> |b| < topic.value.1 + 2) ==> DecodeBody(3, flags, b, v) == Err(ValueError)
    ensures var filter := DecodeField(b, pos);
            (filter.Ok? ==> pos + filter.value.1 == |b|) ==> DecodeRequest(b, pos, v) == Err(ValueError)
  {
    FieldRead(b, 0);
    FieldRead(b, pos);
    hide DecodeField, IsField, DecodeV5;
  }

  /** Publishes of QoS 3, and subscriptions of QoS 3 or retain handling 3, are refused. */
  lemma ReservedRefused(b: Bytes, v: Version, flags: nat, pos: nat)
    ensures flags / 2 % 4 == 3 ==> DecodeBody(3, flags, b, v) == Err(ValueError)
    ensures DecodeField(b, pos).Ok? && pos + DecodeField(b, pos).value.1 < |b| ==>
              var options := b[pos + DecodeField(b, pos).value.1] as int;
              DecodeRequest(b, pos, v).Ok? <==> options % 4 != 3 && (v.V5? ==> options / 16 % 4 != 3)
  {
    hide DecodeField;
  }

  /** One property with a number: an identifier outside the standard's list is refused, a known one replaces its value. */
  lemma NumberReadExactly(buf: Bytes, pos: nat, d: Decoded)
    requires pos < |buf|
    ensures var id := buf[pos] as int; var r := DecodeProp(buf, pos, d);
            && (id !in {1, 2, 3, 8, 9, 11, 17, 18, 19, 21, 22, 23, 24, 25, 26, 28, 31, 33, 34, 35, 36, 37, 38, 39, 40, 41, 42} ==>
                  r == Err(ValueError))
            && (id in {1, 23, 25, 36, 37, 40, 41, 42} && pos + 1 < |buf| ==> r == Ok((d[id := Num(buf[pos + 1] as int)], pos + 2)))
            && (id in {19, 33, 34, 35} && pos + 2 < |buf| ==>
                  r.Ok? && r.value.1 == pos + 3 && exists n :: IsU16(buf[pos + 1..pos + 3], n) && r.value.0 == d[id := Num(n)])
            && (id in {2, 17, 24, 39} && pos + 4 < |buf| ==>
                  r.Ok? && r.value.1 == pos + 5 && exists n :: IsU32(buf[pos + 1..pos + 5], n) && r.value.0 == d[id := Num(n)])
  {
    hide DecodeField, ReadVarint;
    var id := buf[pos] as int;
    var r := DecodeProp(buf, pos, d);
    if id in {19, 33, 34, 35} && pos + 2 < |buf| {
      assert IsU16(buf[pos + 1..pos + 3], UnpackU16(buf, pos + 1).value);
    }
    if id in {2, 17, 24, 39} && pos + 4 < |buf| {
      assert IsU32(buf[pos + 1..pos + 5], UnpackU32(buf, pos + 1).value);
    }
  }

  /** One property with text: a user property adds a pair behind those read before, any other replaces its value. */
  lemma TextReadExactly(buf: Bytes, pos: nat, d: Decoded)
    requires pos < |buf| && DecodeProp(buf, pos, d).Ok?
    ensures var id := buf[pos] as int; var r := DecodeProp(buf, pos, d).value;
            && (id in {3, 8, 9, 18, 21, 22, 26, 28, 31} ==>
                  exists s: Bytes :: IsField(buf[pos + 1..r.1], s) && r.0 == d[id := Text(s)])
            && (id == 38 ==>
                  exists mid, k, s: Bytes :: pos + 1 <= mid <= r.1 && IsField(buf[pos + 1..mid], k) && IsField(buf[mid..r.1], s) &&
                                             r.0 == d[38 := Repeated(PairsSoFar(d) + [(k, s)])])
  {
    hide DecodeField, IsField, ReadVarint, UnpackU16, UnpackU32;
    var id := buf[pos] as int;
    if id in {3, 8, 9, 18, 21, 22, 26, 28, 31} {
      FieldRead(buf, pos + 1);
    }
    if id == 38 {
      FieldRead(buf, pos + 1);
      FieldRead(buf, pos + 1 + DecodeField(buf, pos + 1).value.1);
    }
  }

  lemma FieldRead(buf: Bytes, pos: nat)
    ensures var r := DecodeField(buf, pos);
            if r.Ok? then pos + r.value.1 <= |buf| && IsField(buf[pos..pos + r.value.1], r.value.0) else r == Err(ValueError)
  {
  }
}
