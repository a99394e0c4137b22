/** Encoding followed by decoding, for every packet, version and trailing bytes. */
module CodecProofs {
  import opened Util
  import opened Wire
  import opened Properties
  import opened TypedProperties
  import opened Codec

  /** What survives the wire of an optional property object. */
  function NormalV5<T>(v: Version, props: Option<T>, rows: T -> Rows): Option<T> {
    if v.V5? then NormalProps(props, rows) else None
  }

  function NormalWill(will: Option<Will>, v: Version): Option<Will> {
    if will.Some? then Some(will.value.(properties := NormalV5(v, will.value.properties, WillRows))) else None
  }

  function NormalRequest(s: SubscriptionRequest, v: Version): SubscriptionRequest {
    if v.V5? then s else SubscriptionRequest(s.topicFilter, s.qos, false, false, 0)
  }

  function NormalRequests(subs: seq<SubscriptionRequest>, v: Version): seq<SubscriptionRequest> {
    seq(|subs|, i requires 0 <= i < |subs| => NormalRequest(subs[i], v))
  }

  /** The packet a peer sees: empty property objects become None, a QoS 0 packet has no id, 3.1.1 drops v5 fields. */
  function Normal(p: Packet, v: Version): Packet {
    match p
    case Connect(_, _, _, _, _, will, props) =>
      p.(will := NormalWill(will, v), connectProperties := NormalV5(v, props, ConnectRows))
    case ConnAck(_, _, props) => p.(connAckProperties := NormalV5(v, props, ConnAckRows))
    case Publish(_, _, qos, _, _, id, props) =>
      p.(publishId := if qos == 0 then None else id, publishProperties := NormalV5(v, props, PublishRows))
    case Ack(kind, id, code, props) =>
      if v.V5? then Ack(kind, id, code, NormalProps(props, PubAckRows)) else Ack(kind, id, 0, None)
    case Subscribe(id, subs, props) => Subscribe(id, NormalRequests(subs, v), NormalV5(v, props, SubscribeRows))
    case SubAck(id, codes, props) => SubAck(id, codes, NormalV5(v, props, SubAckRows))
    case Unsubscribe(id, topics, props) => Unsubscribe(id, topics, NormalV5(v, props, UnsubscribeRows))
    case UnsubAck(id, codes, props) =>
      if v.V5? then UnsubAck(id, codes, NormalProps(props, UnsubAckRows)) else UnsubAck(id, [], None)
    case PingReq => p
    case PingResp => p
    case Disconnect(code, props) =>
      if v.V5? then Disconnect(code, NormalProps(props, DisconnectRows)) else Disconnect(0, None)
    case Auth(code, props) => Auth(code, NormalProps(props, AuthRows))
  }

  lemma WholeStands(buf: Bytes)
    ensures Stands(buf, 0, buf)
  {
  }

  /** A suffix of the buffer is what `buf[pos:]` yields. */
  lemma TailStands(buf: Bytes, pos: nat, tail: Bytes)
    requires Stands(buf, pos, tail) && pos + |tail| == |buf|
    ensures From(buf, pos) == tail
  {
  }

  lemma StandsThree(buf: Bytes, pos: nat, a: Bytes, b: Bytes, c: Bytes)
    requires Stands(buf, pos, a + (b + c))
    ensures Stands(buf, pos, a) && Stands(buf, pos + |a|, b) && Stands(buf, pos + |a| + |b|, c)
  {
    hide *;
    StandsSplit(buf, pos, a, b + c);
    StandsSplit(buf, pos + |a|, b, c);
  }

  lemma StandsFive(buf: Bytes, pos: nat, a: Bytes, b: Bytes, c: Bytes, d: Bytes, e: Bytes)
    requires Stands(buf, pos, a + (b + (c + (d + e))))
    ensures Stands(buf, pos, a) && Stands(buf, pos + |a|, b) && Stands(buf, pos + |a| + |b|, c)
    ensures Stands(buf, pos + |a| + |b| + |c|, d) && Stands(buf, pos + |a| + |b| + |c| + |d|, e)
  {
    hide *;
    StandsThree(buf, pos, a, b, c + (d + e));
    StandsThree(buf, pos + |a| + |b|, c, d, e);
  }

  lemma V5RoundTrip<T>(v: Version, props: Option<T>, rows: T -> Rows, from: Decoded -> T, buf: Bytes, pos: nat)
    requires props.Some? ==> Lawful(props.value, rows, from)
    requires EncodeV5(v, props, rows).Ok? && Stands(buf, pos, EncodeV5(v, props, rows).value)
    ensures DecodeV5(v, buf, pos, from) == Ok((NormalV5(v, props, rows), |EncodeV5(v, props, rows).value|))
  {
    hide NormalProps, EncodeTyped, DecodeTyped, Lawful, Stands;
    if v.V5? {
      TypedRoundTrip(props, rows, from, buf, pos);
    }
  }

  lemma OptionalRoundTrip(field: Option<Bytes>, buf: Bytes, pos: nat)
    requires EncodeOptional(field).Ok? && Stands(buf, pos, EncodeOptional(field).value)
    ensures DecodeOptional(field.Some?, buf, pos) == Ok((field, |EncodeOptional(field).value|))
  {
    if field.Some? {
      FieldRoundTrip(field.value, buf, pos);
    }
  }

  /** The eight CONNECT flag bits are read back independently. */
  lemma ConnectFlagBits(p: Packet)
    requires p.Connect?
    ensures var f := ConnectFlags(p);
            && Bit(f, 2) == p.cleanSession && Bit(f, 4) == p.will.Some?
            && Bit(f, 64) == p.password.Some? && Bit(f, 128) == p.username.Some?
            && (p.will.Some? ==> f / 8 % 4 == p.will.value.qos && Bit(f, 32) == p.will.value.retain)
            && f / 8 % 4 <= 2
  {
  }

  lemma EncodedWill(w: Will, v: Version)
    requires EncodeWill(Some(w), v).Ok?
    ensures EncodeV5(v, w.properties, WillRows).Ok? && EncodeField(w.topic).Ok? && EncodeField(w.payload).Ok?
    ensures EncodeWill(Some(w), v).value ==
            EncodeV5(v, w.properties, WillRows).value + (EncodeField(w.topic).value + EncodeField(w.payload).value)
    ensures w.properties.Some? ==> Lawful(w.properties.value, WillRows, WillFrom)
  {
    hide EncodeV5, EncodeField, Lawful;
    if w.properties.Some? {
      WillLawful(w.properties.value);
    }
  }

  lemma DecodedWill(flags: nat, qos: QoS, v: Version, buf: Bytes, pos: nat, w: Will,
                    props: (Option<WillProperties>, nat), topic: nat, payload: nat)
    requires Bit(flags, 4) && Bit(flags, 32) == w.retain && qos == w.qos
    requires DecodeV5(v, buf, pos, WillFrom) == Ok(props)
    requires DecodeField(buf, pos + props.1) == Ok((w.topic, topic))
    requires DecodeField(buf, pos + props.1 + topic) == Ok((w.payload, payload))
    ensures DecodeWill(flags, qos, v, buf, pos) == Ok((Some(w.(properties := props.0)), props.1 + topic + payload))
  {
    hide DecodeV5, DecodeField, Bit;
  }

  lemma WillRoundTrip(will: Option<Will>, flags: nat, qos: QoS, v: Version, buf: Bytes, pos: nat)
    requires EncodeWill(will, v).Ok? && Stands(buf, pos, EncodeWill(will, v).value)
    requires Bit(flags, 4) == will.Some?
    requires will.Some? ==> qos == will.value.qos && Bit(flags, 32) == will.value.retain
    ensures DecodeWill(flags, qos, v, buf, pos) == Ok((NormalWill(will, v), |EncodeWill(will, v).value|))
  {
    hide *;
    if will.Some? {
      var w := will.value;
      EncodedWill(w, v);
      var props, topic, payload :=
        EncodeV5(v, w.properties, WillRows).value, EncodeField(w.topic).value, EncodeField(w.payload).value;
      StandsThree(buf, pos, props, topic, payload);
      V5RoundTrip(v, w.properties, WillRows, WillFrom, buf, pos);
      FieldRoundTrip(w.topic, buf, pos + |props|);
      FieldRoundTrip(w.payload, buf, pos + |props| + |topic|);
      DecodedWill(flags, qos, v, buf, pos, w, (NormalV5(v, w.properties, WillRows), |props|), |topic|, |payload|);
    }
    WillForms(will, flags, qos, v, buf, pos);
  }

  /** What the encoder, the decoder and the normal form make of a will that is absent or present. */
  lemma WillForms(will: Option<Will>, flags: nat, qos: QoS, v: Version, buf: Bytes, pos: nat)
    ensures will.None? ==> EncodeWill(will, v) == Ok([]) && NormalWill(will, v) == None
    ensures !Bit(flags, 4) ==> DecodeWill(flags, qos, v, buf, pos) == Ok((None, 0))
    ensures will.Some? ==>
              NormalWill(will, v) == Some(will.value.(properties := NormalV5(v, will.value.properties, WillRows)))
  {
    hide DecodeV5, DecodeField, EncodeV5, EncodeField, NormalV5, Bit;
  }

  /** The variable part of CONNECT, after the keepalive. */
  ghost function ConnectTail(p: Packet, v: Version): Bytes
    requires p.Connect? && EncodeConnect(p, v).Ok?
  {
    EncodeV5(v, p.connectProperties, ConnectRows).value +
    (EncodeField(p.clientId).value + (EncodeWill(p.will, v).value +
    (EncodeOptional(p.username).value + EncodeOptional(p.password).value)))
  }

  ghost function ConnectHead(p: Packet, v: Version): Bytes
    requires p.Connect?
  {
    [if v.V5? then 5 else 4, ConnectFlags(p)]
  }

  lemma EncodedTail(p: Packet, v: Version)
    requires p.Connect? && EncodeConnect(p, v).Ok?
    ensures ConnectTail(p, v) ==
            EncodeV5(v, p.connectProperties, ConnectRows).value +
            (EncodeField(p.clientId).value + (EncodeWill(p.will, v).value +
            (EncodeOptional(p.username).value + EncodeOptional(p.password).value)))
  {
    hide EncodeV5, EncodeField, EncodeWill, EncodeOptional, EncodeConnect;
    EncodedConnect(p, v);
  }

  lemma EncodedConnect(p: Packet, v: Version)
    requires p.Connect? && EncodeConnect(p, v).Ok?
    ensures EncodeV5(v, p.connectProperties, ConnectRows).Ok? && EncodeField(p.clientId).Ok? && EncodeWill(p.will, v).Ok?
    ensures EncodeOptional(p.username).Ok? && EncodeOptional(p.password).Ok?
    ensures p.connectProperties.Some? ==> Lawful(p.connectProperties.value, ConnectRows, ConnectFrom)
    ensures PackU16(p.keepalive).Ok? && EncodeField(MQTT).Ok?
    ensures EncodeConnect(p, v).value ==
            EncodeField(MQTT).value + (ConnectHead(p, v) + (PackU16(p.keepalive).value + ConnectTail(p, v)))
  {
    hide EncodeV5, EncodeField, Lawful, EncodeWill, EncodeOptional, PackU16, ConnectFlags;
    if p.connectProperties.Some? {
      ConnectLawful(p.connectProperties.value);
    }
  }

  lemma DecodedConnectRest(p: Packet, v: Version, buf: Bytes, pos: nat, flags: nat, qos: QoS,
                           props: nat, client: nat, will: nat, user: nat, pass: nat)
    requires p.Connect? && Bit(flags, 2) == p.cleanSession
    requires Bit(flags, 128) == p.username.Some? && Bit(flags, 64) == p.password.Some?
    requires DecodeV5(v, buf, pos, ConnectFrom) == Ok((NormalV5(v, p.connectProperties, ConnectRows), props))
    requires DecodeField(buf, pos + props) == Ok((p.clientId, client))
    requires DecodeWill(flags, qos, v, buf, pos + props + client) == Ok((NormalWill(p.will, v), will))
    requires DecodeOptional(p.username.Some?, buf, pos + props + client + will) == Ok((p.username, user))
    requires DecodeOptional(p.password.Some?, buf, pos + props + client + will + user) == Ok((p.password, pass))
    ensures DecodeConnectRest(buf, pos, v, flags, qos, p.keepalive) == Ok(Normal(p, v))
  {
    hide DecodeV5, DecodeField, DecodeWill, DecodeOptional, Bit, NormalV5, NormalWill;
  }

  lemma ConnectRestRoundTrip(p: Packet, v: Version, buf: Bytes, pos: nat, flags: nat, qos: QoS)
    requires p.Connect? && EncodeConnect(p, v).Ok? && Stands(buf, pos, ConnectTail(p, v))
    requires flags == ConnectFlags(p) && qos == flags / 8 % 4
    ensures DecodeConnectRest(buf, pos, v, flags, qos, p.keepalive) == Ok(Normal(p, v))
  {
    hide *;
    ConnectFlagBits(p);
    EncodedConnect(p, v);
    EncodedTail(p, v);
    var props := EncodeV5(v, p.connectProperties, ConnectRows).value;
    var client, will := EncodeField(p.clientId).value, EncodeWill(p.will, v).value;
    var user, pass := EncodeOptional(p.username).value, EncodeOptional(p.password).value;
    StandsFive(buf, pos, props, client, will, user, pass);
    var p1 := pos + |props| + |client|;
    V5RoundTrip(v, p.connectProperties, ConnectRows, ConnectFrom, buf, pos);
    FieldRoundTrip(p.clientId, buf, pos + |props|);
    WillRoundTrip(p.will, flags, qos, v, buf, p1);
    OptionalRoundTrip(p.username, buf, p1 + |will|);
    OptionalRoundTrip(p.password, buf, p1 + |will| + |user|);
    DecodedConnectRest(p, v, buf, pos, flags, qos, |props|, |client|, |will|, |user|, |pass|);
  }

  lemma DecodedConnect(buf: Bytes, v: Version, flags: byte, keepalive: nat)
    requires DecodeField(buf, 0) == Ok((MQTT, 6)) && ByteAt(buf, 6) == Ok(if v.V5? then 5 else 4)
    requires ByteAt(buf, 7) == Ok(flags) && flags / 8 % 4 <= 2 && UnpackU16(buf, 8) == Ok(keepalive)
    ensures DecodeConnect(buf) == DecodeConnectRest(buf, 10, v, flags, flags / 8 % 4, keepalive)
  {
    hide DecodeField, ByteAt, UnpackU16, DecodeConnectRest;
  }

  lemma ConnectRoundTrip(p: Packet, v: Version)
    requires p.Connect? && EncodeConnect(p, v).Ok?
    ensures DecodeConnect(EncodeConnect(p, v).value) == Ok(Normal(p, v))
  {
    var buf := EncodeConnect(p, v).value;
    EncodedConnect(p, v);
    var name, head, keepalive, tail := EncodeField(MQTT).value, ConnectHead(p, v), PackU16(p.keepalive).value, ConnectTail(p, v);
    assert |head| == 2 && |name| == 6 && |keepalive| == 2;
    WholeStands(buf);
    ConnectFlagBits(p);
    hide Stands, EncodeConnect, EncodeField, PackU16, ConnectTail, ConnectFlags, DecodeField, UnpackU16,
         DecodeConnectRest, DecodeConnect, Normal, Bit;
    StandsSplit(buf, 0, name, head + (keepalive + tail));
    StandsSplit(buf, 6, head, keepalive + tail);
    StandsSplit(buf, 8, keepalive, tail);
    StandsAt(buf, 6, head, 0);
    StandsAt(buf, 6, head, 1);
    FieldRoundTrip(MQTT, buf, 0);
    U16RoundTrip(p.keepalive, buf, 8);
    StandsFits(buf, 8, keepalive);
    DecodedConnect(buf, v, ConnectFlags(p), p.keepalive);
    ConnectRestRoundTrip(p, v, buf, 10, ConnectFlags(p), ConnectFlags(p) / 8 % 4);
  }

  lemma StandsFits(buf: Bytes, pos: nat, bs: Bytes)
    requires Stands(buf, pos, bs)
    ensures pos + |bs| <= |buf|
  {
  }

  // The remaining packets.

  /** A property block after `prefix`, up to the end of the buffer. */
  lemma TypedAfter<T>(prefix: Bytes, props: Option<T>, rows: T -> Rows, from: Decoded -> T)
    requires props.Some? ==> Lawful(props.value, rows, from)
    requires EncodeTyped(props, rows).Ok?
    ensures var block := EncodeTyped(props, rows).value;
            DecodeTyped(prefix + block, |prefix|, from) == Ok((NormalProps(props, rows), |block|)) && |block| >= 1
  {
    var block := EncodeTyped(props, rows).value;
    var buf := prefix + block;
    BlockNotEmpty(props, rows);
    WholeStands(buf);
    hide *;
    StandsSplit(buf, 0, prefix, block);
    TypedRoundTrip(props, rows, from, buf, |prefix|);
  }

  lemma BlockNotEmpty<T>(props: Option<T>, rows: T -> Rows)
    requires EncodeTyped(props, rows).Ok?
    ensures |EncodeTyped(props, rows).value| >= 1
  {
    hide Present, EncodePropsSpec;
  }

  /** Packet identifier, property block and tail, as four packet types lay them out. */
  lemma IdBlockTail<T>(id: int, v: Version, props: Option<T>, rows: T -> Rows, from: Decoded -> T, tail: Bytes, buf: Bytes)
    requires props.Some? ==> Lawful(props.value, rows, from)
    requires PackU16(id).Ok? && EncodeV5(v, props, rows).Ok?
    requires buf == PackU16(id).value + (EncodeV5(v, props, rows).value + tail)
    ensures var n := |EncodeV5(v, props, rows).value|;
            && |buf| == 2 + n + |tail| && UnpackU16(buf, 0) == Ok(id)
            && DecodeV5(v, buf, 2, from) == Ok((NormalV5(v, props, rows), n))
            && Stands(buf, 2 + n, tail) && From(buf, 2 + n) == tail
  {
    hide *;
    var block := EncodeV5(v, props, rows).value;
    WholeStands(buf);
    StandsThree(buf, 0, PackU16(id).value, block, tail);
    U16RoundTrip(id, buf, 0);
    V5RoundTrip(v, props, rows, from, buf, 2);
    TailStands(buf, 2 + |block|, tail);
  }

  lemma ConnAckRoundTrip(p: Packet, v: Version)
    requires p.ConnAck? && EncodeConnAck(p, v).Ok?
    ensures DecodeConnAck(EncodeConnAck(p, v).value, v) == Ok(Normal(p, v))
  {
    hide EncodeTyped, DecodeTyped, NormalProps, Lawful;
    var prefix := [Flag(p.sessionPresent, 1)] + OneByte(p.returnCode).value;
    if p.connAckProperties.Some? {
      ConnAckLawful(p.connAckProperties.value);
    }
    if v.V5? {
      TypedAfter(prefix, p.connAckProperties, ConnAckRows, ConnAckFrom);
    }
  }

  lemma PublishFlagBits(p: Packet)
    requires p.Publish?
    ensures FlagsOf(p) / 2 % 4 == p.qos && Bit(FlagsOf(p), 1) == p.retain && Bit(FlagsOf(p), 8) == p.dup
  {
  }

  lemma EncodedPublish(p: Packet, v: Version)
    requires p.Publish? && EncodePublish(p, v).Ok?
    ensures EncodeField(p.topic).Ok? && EncodeV5(v, p.publishProperties, PublishRows).Ok?
    ensures p.publishProperties.Some? ==> Lawful(p.publishProperties.value, PublishRows, PublishFrom)
    ensures p.qos != 0 ==> p.publishId.Some? && PackU16(p.publishId.value).Ok?
    ensures EncodePublish(p, v).value ==
            EncodeField(p.topic).value + ((if p.qos != 0 then PackU16(p.publishId.value).value else []) +
            (EncodeV5(v, p.publishProperties, PublishRows).value + p.payload))
  {
    hide EncodeField, EncodeV5, PackU16, Lawful;
    if p.publishProperties.Some? {
      PublishLawful(p.publishProperties.value);
    }
  }

  lemma DecodedPublish(p: Packet, v: Version, buf: Bytes, flags: nat, topic: nat, n: nat)
    requires p.Publish? && flags / 2 % 4 == p.qos && Bit(flags, 1) == p.retain && Bit(flags, 8) == p.dup
    requires DecodeField(buf, 0) == Ok((p.topic, topic))
    requires p.qos != 0 ==> topic + 2 <= |buf| && p.publishId.Some? && UnpackU16(buf, topic) == Ok(p.publishId.value)
    requires var pos := topic + if p.qos != 0 then 2 else 0;
             && DecodeV5(v, buf, pos, PublishFrom) == Ok((NormalV5(v, p.publishProperties, PublishRows), n))
             && From(buf, pos + n) == p.payload
    ensures DecodePublish(buf, flags, v) == Ok(Normal(p, v))
  {
    hide DecodeField, UnpackU16, DecodeV5, Bit, From, NormalV5;
  }

  lemma PublishRoundTrip(p: Packet, v: Version)
    requires p.Publish? && EncodePublish(p, v).Ok?
    ensures DecodePublish(EncodePublish(p, v).value, FlagsOf(p), v) == Ok(Normal(p, v))
  {
    hide *;
    var buf := EncodePublish(p, v).value;
    EncodedPublish(p, v);
    PublishFlagBits(p);
    var topic, props := EncodeField(p.topic).value, EncodeV5(v, p.publishProperties, PublishRows).value;
    var id: Bytes := if p.qos != 0 then PackU16(p.publishId.value).value else [];
    WholeStands(buf);
    StandsThree(buf, 0, topic, id, props + p.payload);
    FieldRoundTrip(p.topic, buf, 0);
    var pos := |topic| + |id|;
    if p.qos != 0 {
      U16RoundTrip(p.publishId.value, buf, |topic|);
    }
    StandsSplit(buf, pos, props, p.payload);
    V5RoundTrip(v, p.publishProperties, PublishRows, PublishFrom, buf, pos);
    TailStands(buf, pos + |props|, p.payload);
    DecodedPublish(p, v, buf, FlagsOf(p), |topic|, |props|);
  }

  lemma AckRoundTrip(p: Packet, v: Version)
    requires p.Ack? && EncodeAck(p, v).Ok?
    ensures DecodeAck(p.kind, EncodeAck(p, v).value, v) == Ok(Normal(p, v))
  {
    hide EncodeTyped, DecodeTyped, Lawful, Present, PubAckRows;
    if p.ackProperties.Some? {
      PubAckLawful(p.ackProperties.value);
    }
    var id := PackU16(p.packetId).value;
    if v.V5? && (p.reasonCode != 0 || p.ackProperties.Some?) {
      TypedAfter(id + PackU8(p.reasonCode).value, p.ackProperties, PubAckRows, PubAckFrom);
    }
  }

  lemma DisconnectRoundTrip(p: Packet, v: Version)
    requires p.Disconnect? && EncodeDisconnect(p, v).Ok?
    ensures DecodeDisconnect(EncodeDisconnect(p, v).value, v) == Ok(Normal(p, v))
  {
    hide EncodeTyped, DecodeTyped, Lawful, Present, DisconnectRows;
    if p.disconnectProperties.Some? {
      DisconnectLawful(p.disconnectProperties.value);
    }
    if v.V5? && (p.reasonCode != 0 || p.disconnectProperties.Some?) {
      TypedAfter(OneByte(p.reasonCode).value, p.disconnectProperties, DisconnectRows, DisconnectFrom);
    }
  }

  lemma AuthRoundTrip(p: Packet, v: Version)
    requires p.Auth? && EncodeAuth(p).Ok?
    ensures DecodeAuth(EncodeAuth(p).value) == Ok(Normal(p, v))
  {
    hide EncodeTyped, DecodeTyped, Lawful, NormalProps;
    if p.authProperties.Some? {
      AuthLawful(p.authProperties.value);
    }
    TypedAfter(OneByte(p.reasonCode).value, p.authProperties, AuthRows, AuthFrom);
  }

  lemma {:induction false} CodesRoundTrip(codes: seq<int>)
    requires CodesToBytes(codes).Ok?
    ensures BytesToCodes(CodesToBytes(codes).value) == codes
  {
    if codes != [] {
      CodesRoundTrip(codes[1..]);
      var rest := CodesToBytes(codes[1..]).value;
      forall i | 0 <= i < |codes|
        ensures BytesToCodes(CodesToBytes(codes).value)[i] == codes[i]
      {
        if i > 0 {
          assert BytesToCodes(rest)[i - 1] == codes[1..][i - 1];
        }
      }
    }
  }

  lemma {:induction false} FieldsRoundTrip(fields: seq<Bytes>, buf: Bytes, pos: nat)
    requires EncodeFields(fields).Ok? && Stands(buf, pos, EncodeFields(fields).value)
    requires pos + |EncodeFields(fields).value| == |buf|
    ensures DecodeFields(buf, pos) == Ok(fields)
    decreases |fields|
  {
    if fields != [] {
      hide EncodeField, DecodeField, Stands;
      var head, rest := EncodeField(fields[0]).value, EncodeFields(fields[1..]).value;
      StandsSplit(buf, pos, head, rest);
      FieldRoundTrip(fields[0], buf, pos);
      FieldsRoundTrip(fields[1..], buf, pos + |head|);
      assert fields == [fields[0]] + fields[1..];
    }
  }

  /** The four subfields of a subscription options byte are read back independently. */
  lemma OptionBits(s: SubscriptionRequest)
    ensures var o := s.qos + Flag(s.noLocal, 4) + Flag(s.retainAsPublished, 8) + s.retainHandling * 16;
            o < 256 && o % 4 == s.qos && Bit(o, 4) == s.noLocal && Bit(o, 8) == s.retainAsPublished &&
            o / 16 % 4 == s.retainHandling
  {
  }

  lemma RequestRoundTrip(s: SubscriptionRequest, v: Version, buf: Bytes, pos: nat)
    requires EncodeRequest(s, v).Ok? && Stands(buf, pos, EncodeRequest(s, v).value)
    ensures DecodeRequest(buf, pos, v) == Ok((NormalRequest(s, v), pos + |EncodeRequest(s, v).value|))
    ensures |EncodeRequest(s, v).value| > 0
  {
    hide EncodeField, DecodeField, Stands, Flag, Bit;
    OptionBits(s);
    var topic := EncodeField(s.topicFilter).value;
    var options := EncodeRequest(s, v).value[|topic|..];
    StandsSplit(buf, pos, topic, options);
    StandsAt(buf, pos + |topic|, options, 0);
    StandsFits(buf, pos + |topic|, options);
    FieldRoundTrip(s.topicFilter, buf, pos);
  }

  lemma {:induction false} RequestsRoundTrip(subs: seq<SubscriptionRequest>, v: Version, buf: Bytes, pos: nat)
    requires EncodeRequests(subs, v).Ok? && Stands(buf, pos, EncodeRequests(subs, v).value)
    requires pos + |EncodeRequests(subs, v).value| == |buf|
    ensures DecodeRequests(buf, pos, v) == Ok(NormalRequests(subs, v))
    decreases |subs|
  {
    hide *;
    RequestsForms(subs, v, buf, pos);
    if subs != [] {
      var head, rest := EncodeRequest(subs[0], v).value, EncodeRequests(subs[1..], v).value;
      StandsSplit(buf, pos, head, rest);
      RequestRoundTrip(subs[0], v, buf, pos);
      RequestsRoundTrip(subs[1..], v, buf, pos + |head|);
    }
  }

  /** Encoder, decoder and normal form of a request list, one request at a time. */
  lemma RequestsForms(subs: seq<SubscriptionRequest>, v: Version, buf: Bytes, pos: nat)
    requires EncodeRequests(subs, v).Ok?
    ensures subs == [] ==> EncodeRequests(subs, v).value == [] && NormalRequests(subs, v) == []
    ensures pos == |buf| ==> DecodeRequests(buf, pos, v) == Ok([])
    ensures subs != [] ==>
              && EncodeRequest(subs[0], v).Ok? && EncodeRequests(subs[1..], v).Ok?
              && EncodeRequests(subs, v).value == EncodeRequest(subs[0], v).value + EncodeRequests(subs[1..], v).value
              && NormalRequests(subs, v) == [NormalRequest(subs[0], v)] + NormalRequests(subs[1..], v)
    ensures var head := DecodeRequest(buf, pos, v);
            pos < |buf| && head.Ok? && DecodeRequests(buf, head.value.1, v).Ok? ==>
              DecodeRequests(buf, pos, v) == Ok([head.value.0] + DecodeRequests(buf, head.value.1, v).value)
  {
    hide EncodeRequest, DecodeRequest, NormalRequest;
  }

  lemma SubscribeRoundTrip(p: Packet, v: Version)
    requires p.Subscribe? && EncodeSubscribeSpec(p, v).Ok?
    ensures DecodeSubscribeSpec(EncodeSubscribeSpec(p, v).value, v) == Ok(Normal(p, v))
  {
    hide EncodeV5, DecodeV5, NormalV5, Lawful, EncodeRequests, DecodeRequests, NormalRequests, PackU16, UnpackU16, Stands;
    var buf := EncodeSubscribeSpec(p, v).value;
    if p.subscribeProperties.Some? {
      SubscribeLawful(p.subscribeProperties.value);
    }
    IdBlockTail(p.packetId, v, p.subscribeProperties, SubscribeRows, SubscribeFrom, EncodeRequests(p.subscriptions, v).value, buf);
    RequestsRoundTrip(p.subscriptions, v, buf, 2 + |EncodeV5(v, p.subscribeProperties, SubscribeRows).value|);
  }

  lemma SubAckRoundTrip(p: Packet, v: Version)
    requires p.SubAck? && EncodeSubAck(p, v).Ok?
    ensures DecodeSubAck(EncodeSubAck(p, v).value, v) == Ok(Normal(p, v))
  {
    hide EncodeV5, DecodeV5, NormalV5, Lawful, CodesToBytes, BytesToCodes, PackU16, UnpackU16, Stands, From;
    var buf := EncodeSubAck(p, v).value;
    if p.subAckProperties.Some? {
      SubAckLawful(p.subAckProperties.value);
    }
    IdBlockTail(p.packetId, v, p.subAckProperties, SubAckRows, SubAckFrom, CodesToBytes(p.returnCodes).value, buf);
    CodesRoundTrip(p.returnCodes);
  }

  lemma UnsubscribeRoundTrip(p: Packet, v: Version)
    requires p.Unsubscribe? && EncodeUnsubscribeSpec(p, v).Ok?
    ensures DecodeUnsubscribeSpec(EncodeUnsubscribeSpec(p, v).value, v) == Ok(Normal(p, v))
  {
    hide EncodeV5, DecodeV5, NormalV5, Lawful, EncodeFields, DecodeFields, PackU16, UnpackU16, Stands;
    var buf := EncodeUnsubscribeSpec(p, v).value;
    if p.unsubscribeProperties.Some? {
      UnsubscribeLawful(p.unsubscribeProperties.value);
    }
    IdBlockTail(p.packetId, v, p.unsubscribeProperties, UnsubscribeRows, UnsubscribeFrom, EncodeFields(p.topicFilters).value, buf);
    FieldsRoundTrip(p.topicFilters, buf, 2 + |EncodeV5(v, p.unsubscribeProperties, UnsubscribeRows).value|);
  }

  lemma UnsubAckRoundTrip(p: Packet, v: Version)
    requires p.UnsubAck? && EncodeUnsubAck(p, v).Ok?
    ensures DecodeUnsubAck(EncodeUnsubAck(p, v).value, v) == Ok(Normal(p, v))
  {
    hide EncodeV5, DecodeV5, NormalV5, Lawful, CodesToBytes, BytesToCodes, PackU16, UnpackU16, Stands, From;
    if v.V5? {
      var buf := EncodeUnsubAck(p, v).value;
      if p.unsubAckProperties.Some? {
        UnsubAckLawful(p.unsubAckProperties.value);
      }
      IdBlockTail(p.packetId, v, p.unsubAckProperties, UnsubAckRows, UnsubAckFrom, CodesToBytes(p.reasonCodes).value, buf);
      CodesRoundTrip(p.reasonCodes);
      NormalOnV5(p.unsubAckProperties, UnsubAckRows);
    } else {
      IdOnly(p.packetId);
    }
  }

  lemma NormalOnV5<T>(props: Option<T>, rows: T -> Rows)
    ensures NormalV5(V5, props, rows) == NormalProps(props, rows)
  {
  }

  lemma IdOnly(id: int)
    requires PackU16(id).Ok?
    ensures |PackU16(id).value| == 2 && UnpackU16(PackU16(id).value, 0) == Ok(id)
  {
    WholeStands(PackU16(id).value);
    U16RoundTrip(id, PackU16(id).value, 0);
  }

  lemma BodyRoundTrip(p: Packet, v: Version)
    requires EncodeBody(p, v).Ok?
    ensures DecodeBody(TypeOf(p), FlagsOf(p), EncodeBody(p, v).value, v) == Ok(Normal(p, v))
  {
    hide EncodeConnect, DecodeConnect, EncodeConnAck, DecodeConnAck, EncodePublish, DecodePublish, EncodeAck, DecodeAck,
         EncodeSubscribeSpec, DecodeSubscribeSpec, EncodeSubAck, DecodeSubAck, EncodeUnsubscribeSpec, DecodeUnsubscribeSpec,
         EncodeUnsubAck, DecodeUnsubAck, EncodeDisconnect, DecodeDisconnect, EncodeAuth, DecodeAuth, FlagsOf;
    match p
    case Connect(_, _, _, _, _, _, _) => ConnectRoundTrip(p, v);
    case ConnAck(_, _, _) => ConnAckRoundTrip(p, v);
    case Publish(_, _, _, _, _, _, _) => PublishRoundTrip(p, v);
    case Ack(kind, _, _, _) => AckRoundTrip(p, v);
    case Subscribe(_, _, _) => SubscribeRoundTrip(p, v);
    case SubAck(_, _, _) => SubAckRoundTrip(p, v);
    case Unsubscribe(_, _, _) => UnsubscribeRoundTrip(p, v);
    case UnsubAck(_, _, _) => UnsubAckRoundTrip(p, v);
    case PingReq =>
    case PingResp =>
    case Disconnect(_, _) => DisconnectRoundTrip(p, v);
    case Auth(_, _) => AuthRoundTrip(p, v);
  }

  lemma {:induction false} LengthIsVarint(buf: Bytes, pos: nat, budget: nat)
    requires ReadVarint(buf, pos, budget).Ok?
    ensures ReadLength(buf, pos, budget) ==
            Length(ReadVarint(buf, pos, budget).value.0, ReadVarint(buf, pos, budget).value.1)
    decreases budget
  {
    if buf[pos] >= 128 {
      LengthIsVarint(buf, pos + 1, budget - 1);
    }
  }

  lemma EncodedPacket(p: Packet, v: Version)
    requires Encode(p, v).Ok?
    ensures EncodeBody(p, v).Ok? && EncodeVarintSpec(|EncodeBody(p, v).value|).Ok?
    ensures var body := EncodeBody(p, v).value; var first: int := TypeOf(p) * 16 + FlagsOf(p);
            && Encode(p, v).value == [first] + (VarintBytes(|body|) + body)
            && first / 16 == TypeOf(p) && first % 16 == FlagsOf(p)
  {
    hide EncodeBody, VarintBytes, TypeOf, FlagsOf;
    var body := EncodeBody(p, v).value;
    var first: int := TypeOf(p) * 16 + FlagsOf(p);
    assert [first] + VarintBytes(|body|) + body == [first] + (VarintBytes(|body|) + body);
  }

  /** The fixed header of an encoded packet, whatever follows it. */
  lemma HeaderReadBack(p: Packet, v: Version, rest: Bytes)
    requires Encode(p, v).Ok?
    ensures EncodeBody(p, v).Ok?
    ensures var bs, body := Encode(p, v).value, EncodeBody(p, v).value; var width := |VarintBytes(|body|)|;
            var buf := bs + rest;
            && |bs| == 1 + width + |body| && |bs| >= 2
            && buf[0] / 16 == TypeOf(p) && buf[0] % 16 == FlagsOf(p)
            && ReadLength(buf, 1, 4) == Length(|body|, width) && buf[1 + width..|bs|] == body
  {
    hide *;
    EncodedPacket(p, v);
    var bs, body := Encode(p, v).value, EncodeBody(p, v).value;
    var first: int := TypeOf(p) * 16 + FlagsOf(p);
    var length := VarintBytes(|body|);
    FrontStands(bs, rest);
    StandsThree(bs + rest, 0, [first], length, body);
    StandsAt(bs + rest, 0, [first], 0);
    StandsMeans(bs + rest, 1 + |length|, body);
    VarintIs(|body|);
    VarintRoundTrip(|body|, bs + rest, 1);
    LengthIsVarint(bs + rest, 1, 4);
  }

  lemma FrontStands(front: Bytes, rest: Bytes)
    ensures Stands(front + rest, 0, front)
  {
  }

  lemma StandsMeans(buf: Bytes, pos: nat, bs: Bytes)
    requires Stands(buf, pos, bs)
    ensures pos + |bs| <= |buf| && buf[pos..pos + |bs|] == bs
  {
  }

  lemma VarintIs(n: nat)
    requires EncodeVarintSpec(n).Ok?
    ensures EncodeVarintSpec(n).value == VarintBytes(n) && |VarintBytes(n)| >= 1
  {
  }

  lemma DecodeSteps(buf: Bytes, v: Version, maxSize: Option<int>, n: nat, width: nat)
    requires |buf| >= 2 && ReadLength(buf, 1, 4) == Length(n, width)
    ensures var total := 1 + width + n;
            DecodeSpec(buf, v, maxSize) ==
            if maxSize.Some? && total > maxSize.value then Err(PacketTooLarge(total, maxSize.value))
            else if |buf| < total then Ok(None)
            else var r := DecodeBody(buf[0] / 16, buf[0] % 16, buf[1 + width..total], v);
                 if r.Ok? then Ok(Some((r.value, total))) else Err(r.error)
  {
    hide DecodeBody, ReadLength;
  }

  /**
   * Decoding what was encoded, with any bytes behind it and any Maximum Packet Size. A CONNECT names its own
   * version, so the reader's version does not matter for it.
   */
  lemma PacketRoundTrip(p: Packet, v: Version, reader: Version, maxSize: Option<int>, rest: Bytes)
    requires Encode(p, v).Ok? && (reader == v || p.Connect?)
    ensures var bs := Encode(p, v).value;
            DecodeSpec(bs + rest, reader, maxSize) ==
            if maxSize.Some? && |bs| > maxSize.value then Err(PacketTooLarge(|bs|, maxSize.value))
            else Ok(Some((Normal(p, v), |bs|)))
  {
    hide *;
    var bs := Encode(p, v).value;
    HeaderReadBack(p, v, rest);
    var body := EncodeBody(p, v).value;
    var width := |VarintBytes(|body|)|;
    BodyRoundTrip(p, v);
    ConnectIgnoresVersion(p, body, v, reader);
    DecodeSteps(bs + rest, reader, maxSize, |body|, width);
  }

  lemma ConnectIgnoresVersion(p: Packet, body: Bytes, v: Version, reader: Version)
    requires reader == v || p.Connect?
    ensures DecodeBody(TypeOf(p), FlagsOf(p), body, reader) == DecodeBody(TypeOf(p), FlagsOf(p), body, v)
  {
    hide DecodeConnect, FlagsOf;
  }

  /** Two packets with the same encoding differ at most in what the wire does not carry. */
  lemma EncodingIsInjective(p: Packet, q: Packet, v: Version)
    requires Encode(p, v).Ok? && Encode(p, v) == Encode(q, v)
    ensures Normal(p, v) == Normal(q, v)
  {
    hide *;
    PacketRoundTrip(p, v, v, None, []);
    PacketRoundTrip(q, v, v, None, []);
  }
}
