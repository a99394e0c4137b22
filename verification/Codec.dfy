/** Control packets of MQTT 3.1.1 and 5.0: encoding and decoding. */
module Codec {
  import opened Util
  import opened Wire
  import opened Properties
  import opened TypedProperties

  datatype Version = V311 | V5

  type QoS = q: int | 0 <= q <= 2
  type RetainHandling = h: int | 0 <= h <= 2

  datatype Will = Will(topic: Bytes, payload: Bytes, qos: QoS, retain: bool, properties: Option<WillProperties>)

  datatype SubscriptionRequest = SubscriptionRequest(
    topicFilter: Bytes, qos: QoS, noLocal: bool, retainAsPublished: bool, retainHandling: RetainHandling)

  /** PUBACK, PUBREC, PUBREL and PUBCOMP share one shape. */
  datatype AckKind = PubAck | PubRec | PubRel | PubComp

  datatype Packet =
    | Connect(clientId: Bytes, cleanSession: bool, keepalive: int, username: Option<Bytes>, password: Option<Bytes>,
              will: Option<Will>, connectProperties: Option<ConnectProperties>)
    | ConnAck(sessionPresent: bool, returnCode: int, connAckProperties: Option<ConnAckProperties>)
    | Publish(topic: Bytes, payload: Bytes, qos: QoS, retain: bool, dup: bool, publishId: Option<int>,
              publishProperties: Option<PublishProperties>)
    | Ack(kind: AckKind, packetId: int, reasonCode: int, ackProperties: Option<PubAckProperties>)
    | Subscribe(packetId: int, subscriptions: seq<SubscriptionRequest>, subscribeProperties: Option<SubscribeProperties>)
    | SubAck(packetId: int, returnCodes: seq<int>, subAckProperties: Option<SubAckProperties>)
    | Unsubscribe(packetId: int, topicFilters: seq<Bytes>, unsubscribeProperties: Option<UnsubscribeProperties>)
    | UnsubAck(packetId: int, reasonCodes: seq<int>, unsubAckProperties: Option<UnsubAckProperties>)
    | PingReq
    | PingResp
    | Disconnect(reasonCode: int, disconnectProperties: Option<DisconnectProperties>)
    | Auth(reasonCode: int, authProperties: Option<AuthProperties>)

  const MQTT: Bytes := [77, 81, 84, 84]

  function Flag(b: bool, weight: nat): nat { if b then weight else 0 }

  predicate Bit(n: nat, weight: nat)
    requires weight > 0
  {
    n / weight % 2 == 1
  }

  function TypeOf(p: Packet): (t: nat)
    ensures 1 <= t <= 15
  {
    match p
    case Connect(_, _, _, _, _, _, _) => 1
    case ConnAck(_, _, _) => 2
    case Publish(_, _, _, _, _, _, _) => 3
    case Ack(PubAck, _, _, _) => 4
    case Ack(PubRec, _, _, _) => 5
    case Ack(PubRel, _, _, _) => 6
    case Ack(PubComp, _, _, _) => 7
    case Subscribe(_, _, _) => 8
    case SubAck(_, _, _) => 9
    case Unsubscribe(_, _, _) => 10
    case UnsubAck(_, _, _) => 11
    case PingReq => 12
    case PingResp => 13
    case Disconnect(_, _) => 14
    case Auth(_, _) => 15
  }

  function FlagsOf(p: Packet): (f: nat)
    ensures f < 16
  {
    match p
    case Publish(_, _, qos, retain, dup, _, _) => Flag(dup, 8) + qos * 2 + Flag(retain, 1)
    case Ack(PubRel, _, _, _) => 2
    case Subscribe(_, _, _) => 2
    case Unsubscribe(_, _, _) => 2
    case _ => 0
  }

  // Encoding.

  function BuildPacket(packetType: nat, flags: nat, body: Bytes): Coded<Bytes>
    requires packetType < 16 && flags < 16
  {
    var length :- EncodeVarintSpec(|body|);
    var first: int := packetType * 16 + flags;
    Ok([first] + length + body)
  }

  /** A property block, which only version 5.0 has. */
  function EncodeV5<T>(v: Version, props: Option<T>, rows: T -> Rows): Coded<Bytes> {
    if v.V5? then EncodeTyped(props, rows) else Ok([])
  }

  function EncodeOptional(field: Option<Bytes>): Coded<Bytes> {
    if field.Some? then EncodeField(field.value) else Ok([])
  }

  function ConnectFlags(p: Packet): (f: nat)
    requires p.Connect?
    ensures f < 256
  {
    Flag(p.cleanSession, 2) +
    (if p.will.Some? then 4 + p.will.value.qos * 8 + Flag(p.will.value.retain, 32) else 0) +
    Flag(p.password.Some?, 64) + Flag(p.username.Some?, 128)
  }

  function EncodeWill(will: Option<Will>, v: Version): Coded<Bytes> {
    match will
    case None => Ok([])
    case Some(w) =>
      var props :- EncodeV5(v, w.properties, WillRows);
      var topic :- EncodeField(w.topic);
      var payload :- EncodeField(w.payload);
      Ok(props + (topic + payload))
  }

  function EncodeConnect(p: Packet, v: Version): Coded<Bytes>
    requires p.Connect?
  {
    var name :- EncodeField(MQTT);
    var keepalive :- PackU16(p.keepalive);
    var props :- EncodeV5(v, p.connectProperties, ConnectRows);
    var client :- EncodeField(p.clientId);
    var will :- EncodeWill(p.will, v);
    var user :- EncodeOptional(p.username);
    var pass :- EncodeOptional(p.password);
    var level: Bytes := [if v.V5? then 5 else 4, ConnectFlags(p)];
    Ok(name + (level + (keepalive + (props + (client + (will + (user + pass)))))))
  }

  function EncodeRequest(s: SubscriptionRequest, v: Version): Coded<Bytes> {
    var topic :- EncodeField(s.topicFilter);
    var options: byte :=
      if v.V5? then s.qos + Flag(s.noLocal, 4) + Flag(s.retainAsPublished, 8) + s.retainHandling * 16 else s.qos;
    Ok(topic + [options])
  }

  function EncodeRequests(subs: seq<SubscriptionRequest>, v: Version): Coded<Bytes> {
    if subs == [] then Ok([])
    else
      var head :- EncodeRequest(subs[0], v);
      var rest :- EncodeRequests(subs[1..], v);
      Ok(head + rest)
  }

  function EncodeFields(fields: seq<Bytes>): Coded<Bytes> {
    if fields == [] then Ok([])
    else
      var head :- EncodeField(fields[0]);
      var rest :- EncodeFields(fields[1..]);
      Ok(head + rest)
  }

  /** `bytes(codes)`. */
  function CodesToBytes(codes: seq<int>): Coded<Bytes> {
    if codes == [] then Ok([])
    else
      var head :- OneByte(codes[0]);
      var rest :- CodesToBytes(codes[1..]);
      Ok(head + rest)
  }

  function EncodePublish(p: Packet, v: Version): Coded<Bytes>
    requires p.Publish?
  {
    var topic :- EncodeField(p.topic);
    if p.qos != 0 && p.publishId.None? then Err(ValueError)
    else
      var id :- if p.qos != 0 then PackU16(p.publishId.value) else Ok([]);
      var props :- EncodeV5(v, p.publishProperties, PublishRows);
      Ok(topic + (id + (props + p.payload)))
  }

  function EncodeAck(p: Packet, v: Version): Coded<Bytes>
    requires p.Ack?
  {
    var id :- PackU16(p.packetId);
    if v.V5? && (p.reasonCode != 0 || p.ackProperties.Some?) then
      var code :- PackU8(p.reasonCode);
      var props :- EncodeTyped(p.ackProperties, PubAckRows);
      Ok((id + code) + props)
    else Ok(id)
  }

  function EncodeDisconnect(p: Packet, v: Version): Coded<Bytes>
    requires p.Disconnect?
  {
    if v.V5? && (p.reasonCode != 0 || p.disconnectProperties.Some?) then
      var code :- OneByte(p.reasonCode);
      var props :- EncodeTyped(p.disconnectProperties, DisconnectRows);
      Ok(code + props)
    else Ok([])
  }

  function EncodeConnAck(p: Packet, v: Version): Coded<Bytes>
    requires p.ConnAck?
  {
    var code :- OneByte(p.returnCode);
    var props :- EncodeV5(v, p.connAckProperties, ConnAckRows);
    Ok(([Flag(p.sessionPresent, 1)] + code) + props)
  }

  function EncodeSubscribeSpec(p: Packet, v: Version): Coded<Bytes>
    requires p.Subscribe?
  {
    var id :- PackU16(p.packetId);
    var props :- EncodeV5(v, p.subscribeProperties, SubscribeRows);
    var requests :- EncodeRequests(p.subscriptions, v);
    Ok(id + (props + requests))
  }

  function EncodeSubAck(p: Packet, v: Version): Coded<Bytes>
    requires p.SubAck?
  {
    var id :- PackU16(p.packetId);
    var props :- EncodeV5(v, p.subAckProperties, SubAckRows);
    var codes :- CodesToBytes(p.returnCodes);
    Ok(id + (props + codes))
  }

  function EncodeUnsubscribeSpec(p: Packet, v: Version): Coded<Bytes>
    requires p.Unsubscribe?
  {
    var id :- PackU16(p.packetId);
    var props :- EncodeV5(v, p.unsubscribeProperties, UnsubscribeRows);
    var topics :- EncodeFields(p.topicFilters);
    Ok(id + (props + topics))
  }

  function EncodeUnsubAck(p: Packet, v: Version): Coded<Bytes>
    requires p.UnsubAck?
  {
    var id :- PackU16(p.packetId);
    if v.V5? then
      var props :- EncodeV5(v, p.unsubAckProperties, UnsubAckRows);
      var codes :- CodesToBytes(p.reasonCodes);
      Ok(id + (props + codes))
    else Ok(id)
  }

  /** AUTH writes its properties whatever the version. */
  function EncodeAuth(p: Packet): Coded<Bytes>
    requires p.Auth?
  {
    var code :- OneByte(p.reasonCode);
    var props :- EncodeTyped(p.authProperties, AuthRows);
    Ok(code + props)
  }

  function EncodeBody(p: Packet, v: Version): Coded<Bytes> {
    match p
    case Connect(_, _, _, _, _, _, _) => EncodeConnect(p, v)
    case ConnAck(_, _, _) => EncodeConnAck(p, v)
    case Publish(_, _, _, _, _, _, _) => EncodePublish(p, v)
    case Ack(_, _, _, _) => EncodeAck(p, v)
    case Subscribe(_, _, _) => EncodeSubscribeSpec(p, v)
    case SubAck(_, _, _) => EncodeSubAck(p, v)
    case Unsubscribe(_, _, _) => EncodeUnsubscribeSpec(p, v)
    case UnsubAck(_, _, _) => EncodeUnsubAck(p, v)
    case PingReq => Ok([])
    case PingResp => Ok([])
    case Disconnect(_, _) => EncodeDisconnect(p, v)
    case Auth(_, _) => EncodeAuth(p)
  }

  function Encode(p: Packet, v: Version): Coded<Bytes> {
    var body :- EncodeBody(p, v);
    BuildPacket(TypeOf(p), FlagsOf(p), body)
  }

  // Decoding.

  function DecodeV5<T>(v: Version, buf: Bytes, pos: nat, from: Decoded -> T): (r: Coded<(Option<T>, nat)>) {
    if v.V5? then DecodeTyped(buf, pos, from) else Ok((None, 0))
  }

  function DecodeOptional(present: bool, buf: Bytes, pos: nat): Coded<(Option<Bytes>, nat)> {
    if present then
      var f :- DecodeField(buf, pos);
      Ok((Some(f.0), f.1))
    else Ok((None, 0))
  }

  function DecodeQoS(n: int): Coded<QoS> {
    if 0 <= n <= 2 then Ok(n) else Err(ValueError)
  }

  function DecodeWill(flags: nat, qos: QoS, v: Version, buf: Bytes, pos: nat): Coded<(Option<Will>, nat)> {
    if Bit(flags, 4) then
      var props :- DecodeV5(v, buf, pos, WillFrom);
      var topic :- DecodeField(buf, pos + props.1);
      var payload :- DecodeField(buf, pos + props.1 + topic.1);
      Ok((Some(Will(topic.0, payload.0, qos, Bit(flags, 32), props.0)), props.1 + topic.1 + payload.1))
    else Ok((None, 0))
  }

  function DecodeConnect(buf: Bytes): Coded<Packet> {
    var name :- DecodeField(buf, 0);
    if name.0 != MQTT then Err(ValueError)
    else
      var level :- ByteAt(buf, name.1);
      if level != 4 && level != 5 then Err(ValueError)
      else
        var v := if level == 5 then V5 else V311;
        var flags :- ByteAt(buf, name.1 + 1);
        var qos :- DecodeQoS(flags / 8 % 4);
        var keepalive :- UnpackU16(buf, name.1 + 2);
        DecodeConnectRest(buf, name.1 + 4, v, flags, qos, keepalive)
  }

  function DecodeConnectRest(buf: Bytes, pos: nat, v: Version, flags: nat, qos: QoS, keepalive: int): Coded<Packet> {
    var props :- DecodeV5(v, buf, pos, ConnectFrom);
    var client :- DecodeField(buf, pos + props.1);
    var p1 := pos + props.1 + client.1;
    var will :- DecodeWill(flags, qos, v, buf, p1);
    var user :- DecodeOptional(Bit(flags, 128), buf, p1 + will.1);
    var pass :- DecodeOptional(Bit(flags, 64), buf, p1 + will.1 + user.1);
    Ok(Connect(client.0, Bit(flags, 2), keepalive, user.0, pass.0, will.0, props.0))
  }

  function DecodePublish(buf: Bytes, flags: nat, v: Version): Coded<Packet> {
    var qos :- DecodeQoS(flags / 2 % 4);
    var topic :- DecodeField(buf, 0);
    if qos != 0 && topic.1 + 2 > |buf| then Err(ValueError)
    else
      var id :- if qos != 0 then UnpackU16(buf, topic.1) else Ok(0);
      var pos := topic.1 + if qos != 0 then 2 else 0;
      var props :- DecodeV5(v, buf, pos, PublishFrom);
      Ok(Publish(topic.0, From(buf, pos + props.1), qos, Bit(flags, 1), Bit(flags, 8),
                 if qos != 0 then Some(id) else None, props.0))
  }

  /** The slice `buf[pos:]`, empty when `pos` is past the end. */
  function From(buf: Bytes, pos: nat): Bytes {
    if pos <= |buf| then buf[pos..] else []
  }

  function DecodeAck(kind: AckKind, buf: Bytes, v: Version): Coded<Packet> {
    if |buf| < 2 then Err(ValueError)
    else
      var id :- UnpackU16(buf, 0);
      if v.V5? && |buf| > 2 then
        if |buf| > 3 then
          var props :- DecodeTyped(buf, 3, PubAckFrom);
          Ok(Ack(kind, id, buf[2], props.0))
        else Ok(Ack(kind, id, buf[2], None))
      else Ok(Ack(kind, id, 0, None))
  }

  function DecodeRequest(buf: Bytes, pos: nat, v: Version): (r: Coded<(SubscriptionRequest, nat)>)
    ensures r.Ok? ==> pos < r.value.1 <= |buf|
  {
    var topic :- DecodeField(buf, pos);
    if pos + topic.1 >= |buf| then Err(ValueError)
    else
      var options := buf[pos + topic.1] as int;
      var qos :- DecodeQoS(options % 4);
      if v.V5? then
        if options / 16 % 4 == 3 then Err(ValueError)
        else Ok((SubscriptionRequest(topic.0, qos, Bit(options, 4), Bit(options, 8), options / 16 % 4), pos + topic.1 + 1))
      else Ok((SubscriptionRequest(topic.0, qos, false, false, 0), pos + topic.1 + 1))
  }

  function DecodeRequests(buf: Bytes, pos: nat, v: Version): Coded<seq<SubscriptionRequest>>
    decreases if pos < |buf| then |buf| - pos else 0
  {
    if pos >= |buf| then Ok([])
    else
      var head :- DecodeRequest(buf, pos, v);
      var rest :- DecodeRequests(buf, head.1, v);
      Ok([head.0] + rest)
  }

  function DecodeFields(buf: Bytes, pos: nat): Coded<seq<Bytes>>
    decreases if pos < |buf| then |buf| - pos else 0
  {
    if pos >= |buf| then Ok([])
    else
      var head :- DecodeField(buf, pos);
      var rest :- DecodeFields(buf, pos + head.1);
      Ok([head.0] + rest)
  }

  function BytesToCodes(buf: Bytes): seq<int> {
    seq(|buf|, i requires 0 <= i < |buf| => buf[i] as int)
  }

  function DecodeConnAck(buf: Bytes, v: Version): Coded<Packet> {
    if |buf| < 2 then Err(ValueError)
    else
      var props :- if v.V5? && |buf| > 2 then DecodeTyped(buf, 2, ConnAckFrom) else Ok((None, 0));
      Ok(ConnAck(Bit(buf[0], 1), buf[1], props.0))
  }

  function DecodeSubscribeSpec(buf: Bytes, v: Version): Coded<Packet> {
    if |buf| < 2 then Err(ValueError)
    else
      var id :- UnpackU16(buf, 0);
      var props :- DecodeV5(v, buf, 2, SubscribeFrom);
      var subs :- DecodeRequests(buf, 2 + props.1, v);
      Ok(Subscribe(id, subs, props.0))
  }

  function DecodeSubAck(buf: Bytes, v: Version): Coded<Packet> {
    if |buf| < 2 then Err(ValueError)
    else
      var id :- UnpackU16(buf, 0);
      var props :- DecodeV5(v, buf, 2, SubAckFrom);
      Ok(SubAck(id, BytesToCodes(From(buf, 2 + props.1)), props.0))
  }

  function DecodeUnsubscribeSpec(buf: Bytes, v: Version): Coded<Packet> {
    if |buf| < 2 then Err(ValueError)
    else
      var id :- UnpackU16(buf, 0);
      var props :- DecodeV5(v, buf, 2, UnsubscribeFrom);
      var topics :- DecodeFields(buf, 2 + props.1);
      Ok(Unsubscribe(id, topics, props.0))
  }

  function DecodeUnsubAck(buf: Bytes, v: Version): Coded<Packet> {
    if |buf| < 2 then Err(ValueError)
    else
      var id :- UnpackU16(buf, 0);
      if v.V5? then
        var props :- DecodeV5(v, buf, 2, UnsubAckFrom);
        Ok(UnsubAck(id, BytesToCodes(From(buf, 2 + props.1)), props.0))
      else Ok(UnsubAck(id, [], None))
  }

  function DecodeDisconnect(buf: Bytes, v: Version): Coded<Packet> {
    if v.V5? && |buf| >= 1 then
      var props :- if |buf| > 1 then DecodeTyped(buf, 1, DisconnectFrom) else Ok((None, 0));
      Ok(Disconnect(buf[0], props.0))
    else Ok(Disconnect(0, None))
  }

  function DecodeAuth(buf: Bytes): Coded<Packet> {
    if |buf| < 1 then Err(ValueError)
    else
      var props :- if |buf| > 1 then DecodeTyped(buf, 1, AuthFrom) else Ok((None, 0));
      Ok(Auth(buf[0], props.0))
  }

  function DecodeBody(t: nat, flags: nat, buf: Bytes, v: Version): Coded<Packet> {
    match t
    case 1 => DecodeConnect(buf)
    case 2 => DecodeConnAck(buf, v)
    case 3 => DecodePublish(buf, flags, v)
    case 4 => DecodeAck(PubAck, buf, v)
    case 5 => DecodeAck(PubRec, buf, v)
    case 6 => DecodeAck(PubRel, buf, v)
    case 7 => DecodeAck(PubComp, buf, v)
    case 8 => DecodeSubscribeSpec(buf, v)
    case 9 => DecodeSubAck(buf, v)
    case 10 => DecodeUnsubscribeSpec(buf, v)
    case 11 => DecodeUnsubAck(buf, v)
    case 12 => Ok(PingReq)
    case 13 => Ok(PingResp)
    case 14 => DecodeDisconnect(buf, v)
    case 15 => DecodeAuth(buf)
    case _ => Err(ValueError)
  }

  /** The remaining length: not all there yet, more than four bytes, or a value and its width. */
  datatype Length = Partial | TooLong | Length(value: nat, width: nat)

  function ReadLength(buf: Bytes, pos: nat, budget: nat): (r: Length)
    ensures r.Length? ==> 1 <= r.width <= budget && pos + r.width <= |buf|
    decreases budget
  {
    if budget == 0 then TooLong
    else if pos >= |buf| then Partial
    else if buf[pos] < 128 then Length(buf[pos], 1)
    else
      match ReadLength(buf, pos + 1, budget - 1)
      case Length(v, w) => Length((buf[pos] as int) - 128 + 128 * v, 1 + w)
      case other => other
  }

  /** One packet and the bytes it takes, None while it is incomplete, or the exception raised. */
  function DecodeSpec(buf: Bytes, v: Version, maxSize: Option<int>): (r: Coded<Option<(Packet, nat)>>)
    ensures r.Ok? && r.value.Some? ==> 2 <= r.value.value.1 <= |buf|
  {
    if |buf| < 2 then Ok(None)
    else
      match ReadLength(buf, 1, 4)
      case Partial => Ok(None)
      case TooLong => Err(ValueError)
      case Length(remaining, width) =>
        var total := 1 + width + remaining;
        if maxSize.Some? && total > maxSize.value then Err(PacketTooLarge(total, maxSize.value))
        else if |buf| < total then Ok(None)
        else
          var p :- DecodeBody(buf[0] / 16, buf[0] % 16, buf[1 + width..total], v);
          Ok(Some((p, total)))
  }

  // The loops of the source, each against the function above that says what it computes.

  lemma PrependNone<T>(r: Coded<seq<T>>)
    ensures Prepend([], r) == r
  {
    if r.Ok? {
      assert [] + r.value == r.value;
    }
  }

  lemma PrependToNone<T>(a: seq<T>)
    ensures Prepend(a, Ok([])) == Ok(a)
  {
    assert a + [] == a;
  }

  lemma NothingLeft<T>(s: seq<T>)
    ensures s[0..] == s && s[|s|..] == []
  {
  }

  lemma PrependRequest(body: Bytes, subs: seq<SubscriptionRequest>, v: Version, i: nat)
    requires i < |subs|
    ensures var head := EncodeRequest(subs[i], v);
            Prepend(body, EncodeRequests(subs[i..], v)) ==
            if head.Ok? then Prepend(body + head.value, EncodeRequests(subs[i + 1..], v)) else Err(head.error)
  {
    hide EncodeRequest;
    assert subs[i..][1..] == subs[i + 1..];
    var head, rest := EncodeRequest(subs[i], v), EncodeRequests(subs[i + 1..], v);
    if head.Ok? && rest.Ok? {
      assert body + (head.value + rest.value) == body + head.value + rest.value;
    }
  }

  method EncodeSubscribe(p: Packet, v: Version) returns (r: Coded<Bytes>)
    requires p.Subscribe?
    ensures r == Encode(p, v)
  {
    hide EncodeRequest, PackU16, EncodeV5, BuildPacket;
    var id :- PackU16(p.packetId);
    var props :- EncodeV5(v, p.subscribeProperties, SubscribeRows);
    var body, subs := id + props, p.subscriptions;
    NothingLeft(subs);
    for i := 0 to |subs|
      invariant Prepend(id + props, EncodeRequests(subs, v)) == Prepend(body, EncodeRequests(subs[i..], v))
    {
      PrependRequest(body, subs, v, i);
      var head :- EncodeRequest(subs[i], v);
      body := body + head;
    }
    PrependToNone(body);
    assert EncodeRequests(subs, v).Ok? ==>
        id + (props + EncodeRequests(subs, v).value) == id + props + EncodeRequests(subs, v).value;
    r := BuildPacket(TypeOf(p), FlagsOf(p), body);
  }

  lemma PrependField(body: Bytes, fields: seq<Bytes>, i: nat)
    requires i < |fields|
    ensures var head := EncodeField(fields[i]);
            Prepend(body, EncodeFields(fields[i..])) ==
            if head.Ok? then Prepend(body + head.value, EncodeFields(fields[i + 1..])) else Err(head.error)
  {
    hide EncodeField;
    assert fields[i..][1..] == fields[i + 1..];
    var head, rest := EncodeField(fields[i]), EncodeFields(fields[i + 1..]);
    if head.Ok? && rest.Ok? {
      assert body + (head.value + rest.value) == body + head.value + rest.value;
    }
  }

  method EncodeUnsubscribe(p: Packet, v: Version) returns (r: Coded<Bytes>)
    requires p.Unsubscribe?
    ensures r == Encode(p, v)
  {
    hide EncodeField, PackU16, EncodeV5, BuildPacket;
    var id :- PackU16(p.packetId);
    var props :- EncodeV5(v, p.unsubscribeProperties, UnsubscribeRows);
    var body, topics := id + props, p.topicFilters;
    NothingLeft(topics);
    for i := 0 to |topics|
      invariant Prepend(id + props, EncodeFields(topics)) == Prepend(body, EncodeFields(topics[i..]))
    {
      PrependField(body, topics, i);
      var head :- EncodeField(topics[i]);
      body := body + head;
    }
    PrependToNone(body);
    assert EncodeFields(topics).Ok? ==>
        id + (props + EncodeFields(topics).value) == id + props + EncodeFields(topics).value;
    r := BuildPacket(TypeOf(p), FlagsOf(p), body);
  }

  lemma PrependDecodedRequest(acc: seq<SubscriptionRequest>, buf: Bytes, pos: nat, v: Version)
    requires pos < |buf|
    ensures var head := DecodeRequest(buf, pos, v);
            Prepend(acc, DecodeRequests(buf, pos, v)) ==
            if head.Ok? then Prepend(acc + [head.value.0], DecodeRequests(buf, head.value.1, v)) else Err(head.error)
  {
    hide DecodeRequest;
    var head := DecodeRequest(buf, pos, v);
    if head.Ok? {
      var rest := DecodeRequests(buf, head.value.1, v);
      if rest.Ok? {
        assert acc + ([head.value.0] + rest.value) == acc + [head.value.0] + rest.value;
      }
    }
  }

  method DecodeSubscribe(buf: Bytes, v: Version) returns (r: Coded<Packet>)
    ensures r == DecodeSubscribeSpec(buf, v)
  {
    hide DecodeRequest, DecodeRequests, UnpackU16, DecodeV5;
    if |buf| < 2 {
      return Err(ValueError);
    }
    var id :- UnpackU16(buf, 0);
    var props :- DecodeV5(v, buf, 2, SubscribeFrom);
    var pos, subs := 2 + props.1, [];
    PrependNone(DecodeRequests(buf, pos, v));
    while pos < |buf|
      invariant DecodeRequests(buf, 2 + props.1, v) == Prepend(subs, DecodeRequests(buf, pos, v))
    {
      PrependDecodedRequest(subs, buf, pos, v);
      var next :- DecodeRequest(buf, pos, v);
      subs, pos := subs + [next.0], next.1;
    }
    NoMoreRequests(buf, pos, v);
    PrependToNone(subs);
    r := Ok(Subscribe(id, subs, props.0));
  }

  lemma NoMoreRequests(buf: Bytes, pos: nat, v: Version)
    requires pos >= |buf|
    ensures DecodeRequests(buf, pos, v) == Ok([])
  {
  }

  lemma PrependDecodedField(acc: seq<Bytes>, buf: Bytes, pos: nat)
    requires pos < |buf|
    ensures var head := DecodeField(buf, pos);
            Prepend(acc, DecodeFields(buf, pos)) ==
            if head.Ok? then Prepend(acc + [head.value.0], DecodeFields(buf, pos + head.value.1)) else Err(head.error)
  {
    hide DecodeField;
    var head := DecodeField(buf, pos);
    if head.Ok? {
      var rest := DecodeFields(buf, pos + head.value.1);
      if rest.Ok? {
        assert acc + ([head.value.0] + rest.value) == acc + [head.value.0] + rest.value;
      }
    }
  }

  method DecodeUnsubscribe(buf: Bytes, v: Version) returns (r: Coded<Packet>)
    ensures r == DecodeUnsubscribeSpec(buf, v)
  {
    hide DecodeField, DecodeFields, UnpackU16, DecodeV5;
    if |buf| < 2 {
      return Err(ValueError);
    }
    var id :- UnpackU16(buf, 0);
    var props :- DecodeV5(v, buf, 2, UnsubscribeFrom);
    var pos, topics := 2 + props.1, [];
    PrependNone(DecodeFields(buf, pos));
    while pos < |buf|
      invariant DecodeFields(buf, 2 + props.1) == Prepend(topics, DecodeFields(buf, pos))
    {
      PrependDecodedField(topics, buf, pos);
      var next :- DecodeField(buf, pos);
      topics, pos := topics + [next.0], pos + next.1;
    }
    NoMoreFields(buf, pos);
    PrependToNone(topics);
    r := Ok(Unsubscribe(id, topics, props.0));
  }

  lemma NoMoreFields(buf: Bytes, pos: nat)
    requires pos >= |buf|
    ensures DecodeFields(buf, pos) == Ok([])
  {
  }

  /** The remaining length when `i` bytes contributed `value` and the next one weighs `multiplier`. */
  ghost function ContinueLength(buf: Bytes, i: nat, multiplier: nat, value: nat): Length
    requires i <= 4
  {
    match ReadLength(buf, 1 + i, 4 - i)
    case Length(v, w) => Length(value + multiplier * v, i + w)
    case other => other
  }

  lemma LengthStep(buf: Bytes, i: nat, multiplier: nat, value: nat)
    requires i < 4 && 1 + i < |buf|
    ensures buf[1 + i] < 128 ==>
              ContinueLength(buf, i, multiplier, value) == Length(value + (buf[1 + i] as int) % 128 * multiplier, i + 1)
    ensures buf[1 + i] >= 128 ==>
              ContinueLength(buf, i, multiplier, value) ==
              ContinueLength(buf, i + 1, multiplier * 128, value + (buf[1 + i] as int) % 128 * multiplier)
  {
    var b := buf[1 + i] as int;
    var rest := ReadLength(buf, 2 + i, 3 - i);
    if b >= 128 && rest.Length? {
      assert multiplier * (b - 128 + 128 * rest.value) == (b - 128) * multiplier + multiplier * 128 * rest.value;
    }
  }

  /** One packet from the front of the buffer, the header read inline so that incomplete data is not an error. */
  method Decode(buf: Bytes, v: Version, maxSize: Option<int>) returns (r: Coded<Option<(Packet, nat)>>)
    ensures r == DecodeSpec(buf, v, maxSize)
  {
    if |buf| < 2 {
      return Ok(None);
    }
    var remaining, multiplier, width := 0, 1, 0;
    hide DecodeBody, ReadLength;
    LengthStarts(buf);
    for i := 0 to 4
      invariant multiplier >= 0 && remaining >= 0 && width == i
      invariant ReadLength(buf, 1, 4) == ContinueLength(buf, i, multiplier, remaining)
    {
      LengthEnds(buf, i);
      if 1 + i >= |buf| {
        return Ok(None);
      }
      var b := buf[1 + i] as int;
      LengthStep(buf, i, multiplier, remaining);
      remaining := remaining + b % 128 * multiplier;
      width := width + 1;
      if b < 128 {
        r := DecodeSized(buf, v, maxSize, remaining, width);
        return;
      }
      multiplier := multiplier * 128;
    }
    LengthEnds(buf, 4);
    r := Err(ValueError);
  }

  lemma LengthStarts(buf: Bytes)
    ensures ContinueLength(buf, 0, 1, 0) == ReadLength(buf, 1, 4)
  {
  }

  lemma LengthEnds(buf: Bytes, i: nat)
    requires i <= 4
    ensures i == 4 ==> ReadLength(buf, 1 + i, 4 - i) == TooLong
    ensures i < 4 && 1 + i >= |buf| ==> ReadLength(buf, 1 + i, 4 - i) == Partial
  {
  }

  /** The rest of `Decode`, once the header has been read. */
  method DecodeSized(buf: Bytes, v: Version, maxSize: Option<int>, remaining: nat, width: nat)
      returns (r: Coded<Option<(Packet, nat)>>)
    requires |buf| >= 2 && ReadLength(buf, 1, 4) == Length(remaining, width)
    ensures r == DecodeSpec(buf, v, maxSize)
  {
    hide DecodeBody, ReadLength;
    var total := 1 + width + remaining;
    if maxSize.Some? && total > maxSize.value {
      return Err(PacketTooLarge(total, maxSize.value));
    }
    if |buf| < total {
      return Ok(None);
    }
    var p :- DecodeBody(buf[0] / 16, buf[0] % 16, buf[1 + width..total], v);
    r := Ok(Some((p, total)));
  }
}
