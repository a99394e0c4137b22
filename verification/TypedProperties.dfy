/** The eleven typed property classes, as rows of optional fields over the untyped dictionary. */
module TypedProperties {
  import opened Util
  import opened Wire
  import opened Properties

  /** The `(pid, value)` list each encoder starts from; None marks an absent field. */
  type Rows = seq<(int, Option<Value>)>

  function Present(rows: Rows): Dict {
    if rows == [] then []
    else if rows[0].1.Some? then [(rows[0].0, rows[0].1.value)] + Present(rows[1..])
    else Present(rows[1..])
  }

  predicate WellKeyed(rows: Rows) {
    forall i, j :: 0 <= i < j < |rows| ==> rows[i].0 != rows[j].0
  }

  predicate UserPairs(rows: Rows) {
    forall i :: 0 <= i < |rows| && rows[i].0 == USER_PROPERTY && rows[i].1.Some? ==>
      rows[i].1.value.Repeated? && rows[i].1.value.pairs != []
  }

  function Get(d: Decoded, id: int): Option<Value> {
    if id in d then Some(d[id]) else None
  }

  lemma {:induction false} PresentKeys(rows: Rows)
    requires WellKeyed(rows) && UserPairs(rows)
    ensures DistinctIds(Present(rows)) && Storable(Present(rows))
    ensures forall k :: 0 <= k < |Present(rows)| ==> exists i :: 0 <= i < |rows| && rows[i].0 == Present(rows)[k].0
  {
    if rows != [] {
      assert forall i :: 0 <= i < |rows| - 1 ==> rows[1..][i] == rows[i + 1];
      PresentKeys(rows[1..]);
      var rest := Present(rows[1..]);
      forall k | 0 <= k < |rest|
        ensures exists i :: 1 <= i < |rows| && rows[i].0 == rest[k].0
      {
        var i :| 0 <= i < |rows| - 1 && rows[1..][i].0 == rest[k].0;
        assert rows[i + 1].0 == rest[k].0;
      }
    }
  }

  lemma {:induction false} LoadKeeps(acc: Decoded, rows: Rows, id: int)
    requires forall i :: 0 <= i < |rows| ==> rows[i].0 != id
    ensures Get(Load(acc, Present(rows)), id) == Get(acc, id)
    decreases |rows|
  {
    if rows != [] {
      assert forall i :: 0 <= i < |rows| - 1 ==> rows[1..][i] == rows[i + 1];
      var d := Present(rows);
      if rows[0].1.Some? {
        assert d[1..] == Present(rows[1..]);
        LoadKeeps(acc[rows[0].0 := rows[0].1.value], rows[1..], id);
      } else {
        LoadKeeps(acc, rows[1..], id);
      }
    }
  }

  /** Every field reads back as it was written. */
  lemma {:induction false} RowsReadBack(acc: Decoded, rows: Rows, i: nat)
    requires WellKeyed(rows) && i < |rows|
    requires forall j :: 0 <= j < |rows| ==> rows[j].0 !in acc
    ensures Get(Load(acc, Present(rows)), rows[i].0) == rows[i].1
    decreases |rows|
  {
    assert forall j :: 0 <= j < |rows| - 1 ==> rows[1..][j] == rows[j + 1];
    var next := if rows[0].1.Some? then acc[rows[0].0 := rows[0].1.value] else acc;
    if rows[0].1.Some? {
      assert Present(rows)[1..] == Present(rows[1..]);
    }
    if i == 0 {
      LoadKeeps(next, rows[1..], rows[0].0);
    } else {
      RowsReadBack(next, rows[1..], i - 1);
    }
  }

  lemma {:induction false} LoadGrows(acc: Decoded, d: Dict)
    ensures acc.Keys <= Load(acc, d).Keys
    decreases |d|
  {
    if d != [] {
      LoadGrows(acc[d[0].0 := d[0].1], d[1..]);
    }
  }

  lemma EmptyLoad(d: Dict)
    ensures Load(map[], d) == map[] <==> d == []
  {
    if d != [] {
      LoadGrows(map[][d[0].0 := d[0].1], d[1..]);
      assert d[0].0 in Load(map[], d);
    }
  }

  // Encoding and decoding one class, given its rows and its constructor from a dictionary.

  function EncodeTyped<T>(props: Option<T>, rows: T -> Rows): Coded<Bytes> {
    match props
    case None => EncodeVarintSpec(0)
    case Some(p) => EncodePropsBlock(Present(rows(p)))
  }

  function DecodeTyped<T>(buf: Bytes, offset: nat, from: Decoded -> T): Coded<(Option<T>, nat)> {
    var block :- DecodePropsBlockSpec(buf, offset);
    Ok((if block.0 == map[] then None else Some(from(block.0)), block.1))
  }

  /** A properties object without any field is the same on the wire as no object. */
  function NormalProps<T>(props: Option<T>, rows: T -> Rows): Option<T> {
    if props.Some? && Present(rows(props.value)) == [] then None else props
  }

  ghost predicate Lawful<T>(p: T, rows: T -> Rows, from: Decoded -> T) {
    WellKeyed(rows(p)) && UserPairs(rows(p)) && from(Load(map[], Present(rows(p)))) == p
  }

  /** Typed round trip at any offset and whatever follows the block. */
  lemma TypedRoundTrip<T>(props: Option<T>, rows: T -> Rows, from: Decoded -> T, buf: Bytes, pos: nat)
    requires props.Some? ==> Lawful(props.value, rows, from)
    requires EncodeTyped(props, rows).Ok? && Stands(buf, pos, EncodeTyped(props, rows).value)
    ensures DecodeTyped(buf, pos, from) == Ok((NormalProps(props, rows), |EncodeTyped(props, rows).value|))
  {
    var d := if props.Some? then Present(rows(props.value)) else [];
    if props.Some? {
      PresentKeys(rows(props.value));
    }
    hide DecodePropsBlockSpec, Present, Load, WellKeyed, UserPairs, DistinctIds, Storable;
    EmptyLoad(d);
    BlockRoundTrip(d, buf, pos);
  }

  // Field conversions.

  function IntRow(o: Option<int>): Option<Value> { if o.Some? then Some(Num(o.value)) else None }

  function BoolRow(o: Option<bool>): Option<Value> {
    if o.Some? then Some(Num(if o.value then 1 else 0)) else None
  }

  function BytesRow(o: Option<Bytes>): Option<Value> { if o.Some? then Some(Text(o.value)) else None }

  function PairsRow(pairs: Pairs): Option<Value> { if pairs == [] then None else Some(Repeated(pairs)) }

  function GetInt(d: Decoded, id: int): Option<int> {
    if id in d && d[id].Num? then Some(d[id].n) else None
  }

  /** `bool(d[id]) if id in d else None`. */
  function GetBool(d: Decoded, id: int): Option<bool> {
    if id in d && d[id].Num? then Some(d[id].n != 0) else None
  }

  function GetBytes(d: Decoded, id: int): Option<Bytes> {
    if id in d && d[id].Text? then Some(d[id].bytes) else None
  }

  function GetPairs(d: Decoded): Pairs { PairsSoFar(d) }

  /** All rows at once. */
  lemma AllRowsReadBack(rows: Rows)
    requires WellKeyed(rows)
    ensures forall i :: 0 <= i < |rows| ==> Get(Load(map[], Present(rows)), rows[i].0) == rows[i].1
  {
    forall i | 0 <= i < |rows|
      ensures Get(Load(map[], Present(rows)), rows[i].0) == rows[i].1
    {
      RowsReadBack(map[], rows, i);
    }
  }

  datatype ConnectProperties = ConnectProperties(
    sessionExpiryInterval: Option<int>,
    receiveMaximum: Option<int>,
    maximumPacketSize: Option<int>,
    topicAliasMaximum: Option<int>,
    requestResponseInformation: Option<bool>,
    requestProblemInformation: Option<bool>,
    authenticationMethod: Option<Bytes>,
    authenticationData: Option<Bytes>,
    userProperties: Pairs)

  function ConnectRows(p: ConnectProperties): Rows {
    [(SESSION_EXPIRY_INTERVAL, IntRow(p.sessionExpiryInterval)),
     (RECEIVE_MAXIMUM, IntRow(p.receiveMaximum)),
     (MAXIMUM_PACKET_SIZE, IntRow(p.maximumPacketSize)),
     (TOPIC_ALIAS_MAXIMUM, IntRow(p.topicAliasMaximum)),
     (REQUEST_RESPONSE_INFORMATION, BoolRow(p.requestResponseInformation)),
     (REQUEST_PROBLEM_INFORMATION, BoolRow(p.requestProblemInformation)),
     (AUTHENTICATION_METHOD, BytesRow(p.authenticationMethod)),
     (AUTHENTICATION_DATA, BytesRow(p.authenticationData)),
     (USER_PROPERTY, PairsRow(p.userProperties))]
  }

  function ConnectFrom(d: Decoded): ConnectProperties {
    ConnectProperties(
      GetInt(d, SESSION_EXPIRY_INTERVAL),
      GetInt(d, RECEIVE_MAXIMUM),
      GetInt(d, MAXIMUM_PACKET_SIZE),
      GetInt(d, TOPIC_ALIAS_MAXIMUM),
      GetBool(d, REQUEST_RESPONSE_INFORMATION),
      GetBool(d, REQUEST_PROBLEM_INFORMATION),
      GetBytes(d, AUTHENTICATION_METHOD),
      GetBytes(d, AUTHENTICATION_DATA),
      GetPairs(d))
  }

  lemma ConnectLawful(p: ConnectProperties)
    ensures Lawful(p, ConnectRows, ConnectFrom)
  {
    var rows := ConnectRows(p);
    AllRowsReadBack(rows);
    var d := Load(map[], Present(rows));
    hide Load, Present;
    assert Get(d, rows[0].0) == rows[0].1;
    assert Get(d, rows[1].0) == rows[1].1;
    assert Get(d, rows[2].0) == rows[2].1;
    assert Get(d, rows[3].0) == rows[3].1;
    assert Get(d, rows[4].0) == rows[4].1;
    assert Get(d, rows[5].0) == rows[5].1;
    assert Get(d, rows[6].0) == rows[6].1;
    assert Get(d, rows[7].0) == rows[7].1;
    assert Get(d, rows[8].0) == rows[8].1;
  }

  datatype WillProperties = WillProperties(
    willDelayInterval: Option<int>,
    payloadFormatIndicator: Option<int>,
    messageExpiryInterval: Option<int>,
    contentType: Option<Bytes>,
    responseTopic: Option<Bytes>,
    correlationData: Option<Bytes>,
    userProperties: Pairs)

  function WillRows(p: WillProperties): Rows {
    [(WILL_DELAY_INTERVAL, IntRow(p.willDelayInterval)),
     (PAYLOAD_FORMAT_INDICATOR, IntRow(p.payloadFormatIndicator)),
     (MESSAGE_EXPIRY_INTERVAL, IntRow(p.messageExpiryInterval)),
     (CONTENT_TYPE, BytesRow(p.contentType)),
     (RESPONSE_TOPIC, BytesRow(p.responseTopic)),
     (CORRELATION_DATA, BytesRow(p.correlationData)),
     (USER_PROPERTY, PairsRow(p.userProperties))]
  }

  function WillFrom(d: Decoded): WillProperties {
    WillProperties(
      GetInt(d, WILL_DELAY_INTERVAL),
      GetInt(d, PAYLOAD_FORMAT_INDICATOR),
      GetInt(d, MESSAGE_EXPIRY_INTERVAL),
      GetBytes(d, CONTENT_TYPE),
      GetBytes(d, RESPONSE_TOPIC),
      GetBytes(d, CORRELATION_DATA),
      GetPairs(d))
  }

  lemma WillLawful(p: WillProperties)
    ensures Lawful(p, WillRows, WillFrom)
  {
    var rows := WillRows(p);
    AllRowsReadBack(rows);
    var d := Load(map[], Present(rows));
    hide Load, Present;
    assert Get(d, rows[0].0) == rows[0].1;
    assert Get(d, rows[1].0) == rows[1].1;
    assert Get(d, rows[2].0) == rows[2].1;
    assert Get(d, rows[3].0) == rows[3].1;
    assert Get(d, rows[4].0) == rows[4].1;
    assert Get(d, rows[5].0) == rows[5].1;
    assert Get(d, rows[6].0) == rows[6].1;
  }

  datatype ConnAckProperties = ConnAckProperties(
    sessionExpiryInterval: Option<int>,
    receiveMaximum: Option<int>,
    maximumQos: Option<int>,
    retainAvailable: Option<bool>,
    maximumPacketSize: Option<int>,
    assignedClientIdentifier: Option<Bytes>,
    topicAliasMaximum: Option<int>,
    reasonString: Option<Bytes>,
    wildcardSubscriptionAvailable: Option<bool>,
    subscriptionIdentifierAvailable: Option<bool>,
    sharedSubscriptionAvailable: Option<bool>,
    serverKeepAlive: Option<int>,
    responseInformation: Option<Bytes>,
    serverReference: Option<Bytes>,
    authenticationMethod: Option<Bytes>,
    authenticationData: Option<Bytes>,
    userProperties: Pairs)

  function ConnAckRows(p: ConnAckProperties): Rows {
    [(SESSION_EXPIRY_INTERVAL, IntRow(p.sessionExpiryInterval)),
     (RECEIVE_MAXIMUM, IntRow(p.receiveMaximum)),
     (MAXIMUM_QOS, IntRow(p.maximumQos)),
     (RETAIN_AVAILABLE, BoolRow(p.retainAvailable)),
     (MAXIMUM_PACKET_SIZE, IntRow(p.maximumPacketSize)),
     (ASSIGNED_CLIENT_IDENTIFIER, BytesRow(p.assignedClientIdentifier)),
     (TOPIC_ALIAS_MAXIMUM, IntRow(p.topicAliasMaximum)),
     (REASON_STRING, BytesRow(p.reasonString)),
     (WILDCARD_SUBSCRIPTION_AVAILABLE, BoolRow(p.wildcardSubscriptionAvailable)),
     (SUBSCRIPTION_IDENTIFIER_AVAILABLE, BoolRow(p.subscriptionIdentifierAvailable)),
     (SHARED_SUBSCRIPTION_AVAILABLE, BoolRow(p.sharedSubscriptionAvailable)),
     (SERVER_KEEP_ALIVE, IntRow(p.serverKeepAlive)),
     (RESPONSE_INFORMATION, BytesRow(p.responseInformation)),
     (SERVER_REFERENCE, BytesRow(p.serverReference)),
     (AUTHENTICATION_METHOD, BytesRow(p.authenticationMethod)),
     (AUTHENTICATION_DATA, BytesRow(p.authenticationData)),
     (USER_PROPERTY, PairsRow(p.userProperties))]
  }

  function ConnAckFrom(d: Decoded): ConnAckProperties {
    ConnAckProperties(
      GetInt(d, SESSION_EXPIRY_INTERVAL),
      GetInt(d, RECEIVE_MAXIMUM),
      GetInt(d, MAXIMUM_QOS),
      GetBool(d, RETAIN_AVAILABLE),
      GetInt(d, MAXIMUM_PACKET_SIZE),
      GetBytes(d, ASSIGNED_CLIENT_IDENTIFIER),
      GetInt(d, TOPIC_ALIAS_MAXIMUM),
      GetBytes(d, REASON_STRING),
      GetBool(d, WILDCARD_SUBSCRIPTION_AVAILABLE),
      GetBool(d, SUBSCRIPTION_IDENTIFIER_AVAILABLE),
      GetBool(d, SHARED_SUBSCRIPTION_AVAILABLE),
      GetInt(d, SERVER_KEEP_ALIVE),
      GetBytes(d, RESPONSE_INFORMATION),
      GetBytes(d, SERVER_REFERENCE),
      GetBytes(d, AUTHENTICATION_METHOD),
      GetBytes(d, AUTHENTICATION_DATA),
      GetPairs(d))
  }

  lemma ConnAckKeyed(p: ConnAckProperties)
    ensures WellKeyed(ConnAckRows(p)) && UserPairs(ConnAckRows(p))
  {
  }

  lemma ConnAckFirstHalf(p: ConnAckProperties, q: ConnAckProperties)
    requires q == ConnAckFrom(Load(map[], Present(ConnAckRows(p))))
    ensures q.sessionExpiryInterval == p.sessionExpiryInterval
    ensures q.receiveMaximum == p.receiveMaximum
    ensures q.maximumQos == p.maximumQos
    ensures q.retainAvailable == p.retainAvailable
    ensures q.maximumPacketSize == p.maximumPacketSize
    ensures q.assignedClientIdentifier == p.assignedClientIdentifier
    ensures q.topicAliasMaximum == p.topicAliasMaximum
    ensures q.reasonString == p.reasonString
    ensures q.wildcardSubscriptionAvailable == p.wildcardSubscriptionAvailable
  {
    var rows := ConnAckRows(p);
    ConnAckKeyed(p);
    hide WellKeyed, UserPairs;
    AllRowsReadBack(rows);
    var d := Load(map[], Present(rows));
    hide Load, Present;
    assert Get(d, rows[0].0) == rows[0].1;
    assert Get(d, rows[1].0) == rows[1].1;
    assert Get(d, rows[2].0) == rows[2].1;
    assert Get(d, rows[3].0) == rows[3].1;
    assert Get(d, rows[4].0) == rows[4].1;
    assert Get(d, rows[5].0) == rows[5].1;
    assert Get(d, rows[6].0) == rows[6].1;
    assert Get(d, rows[7].0) == rows[7].1;
    assert Get(d, rows[8].0) == rows[8].1;
  }

  lemma ConnAckSecondHalf(p: ConnAckProperties, q: ConnAckProperties)
    requires q == ConnAckFrom(Load(map[], Present(ConnAckRows(p))))
    ensures q.subscriptionIdentifierAvailable == p.subscriptionIdentifierAvailable
    ensures q.sharedSubscriptionAvailable == p.sharedSubscriptionAvailable
    ensures q.serverKeepAlive == p.serverKeepAlive
    ensures q.responseInformation == p.responseInformation
    ensures q.serverReference == p.serverReference
    ensures q.authenticationMethod == p.authenticationMethod
    ensures q.authenticationData == p.authenticationData
    ensures q.userProperties == p.userProperties
  {
    var rows := ConnAckRows(p);
    ConnAckKeyed(p);
    hide WellKeyed, UserPairs;
    AllRowsReadBack(rows);
    var d := Load(map[], Present(rows));
    hide Load, Present;
    assert Get(d, rows[9].0) == rows[9].1;
    assert Get(d, rows[10].0) == rows[10].1;
    assert Get(d, rows[11].0) == rows[11].1;
    assert Get(d, rows[12].0) == rows[12].1;
    assert Get(d, rows[13].0) == rows[13].1;
    assert Get(d, rows[14].0) == rows[14].1;
    assert Get(d, rows[15].0) == rows[15].1;
    assert Get(d, rows[16].0) == rows[16].1;
  }

  lemma ConnAckLawful(p: ConnAckProperties)
    ensures Lawful(p, ConnAckRows, ConnAckFrom)
  {
    hide ConnAckRows, ConnAckFrom;
    ConnAckKeyed(p);
    var q := ConnAckFrom(Load(map[], Present(ConnAckRows(p))));
    ConnAckFirstHalf(p, q);
    ConnAckSecondHalf(p, q);
  }

  datatype PublishProperties = PublishProperties(
    payloadFormatIndicator: Option<int>,
    messageExpiryInterval: Option<int>,
    topicAlias: Option<int>,
    responseTopic: Option<Bytes>,
    correlationData: Option<Bytes>,
    subscriptionIdentifier: Option<int>,
    contentType: Option<Bytes>,
    userProperties: Pairs)

  function PublishRows(p: PublishProperties): Rows {
    [(PAYLOAD_FORMAT_INDICATOR, IntRow(p.payloadFormatIndicator)),
     (MESSAGE_EXPIRY_INTERVAL, IntRow(p.messageExpiryInterval)),
     (TOPIC_ALIAS, IntRow(p.topicAlias)),
     (RESPONSE_TOPIC, BytesRow(p.responseTopic)),
     (CORRELATION_DATA, BytesRow(p.correlationData)),
     (SUBSCRIPTION_IDENTIFIER, IntRow(p.subscriptionIdentifier)),
     (CONTENT_TYPE, BytesRow(p.contentType)),
     (USER_PROPERTY, PairsRow(p.userProperties))]
  }

  function PublishFrom(d: Decoded): PublishProperties {
    PublishProperties(
      GetInt(d, PAYLOAD_FORMAT_INDICATOR),
      GetInt(d, MESSAGE_EXPIRY_INTERVAL),
      GetInt(d, TOPIC_ALIAS),
      GetBytes(d, RESPONSE_TOPIC),
      GetBytes(d, CORRELATION_DATA),
      GetInt(d, SUBSCRIPTION_IDENTIFIER),
      GetBytes(d, CONTENT_TYPE),
      GetPairs(d))
  }

  lemma PublishLawful(p: PublishProperties)
    ensures Lawful(p, PublishRows, PublishFrom)
  {
    var rows := PublishRows(p);
    AllRowsReadBack(rows);
    var d := Load(map[], Present(rows));
    hide Load, Present;
    assert Get(d, rows[0].0) == rows[0].1;
    assert Get(d, rows[1].0) == rows[1].1;
    assert Get(d, rows[2].0) == rows[2].1;
    assert Get(d, rows[3].0) == rows[3].1;
    assert Get(d, rows[4].0) == rows[4].1;
    assert Get(d, rows[5].0) == rows[5].1;
    assert Get(d, rows[6].0) == rows[6].1;
    assert Get(d, rows[7].0) == rows[7].1;
  }

  datatype PubAckProperties = PubAckProperties(
    reasonString: Option<Bytes>,
    userProperties: Pairs)

  function PubAckRows(p: PubAckProperties): Rows {
    [(REASON_STRING, BytesRow(p.reasonString)),
     (USER_PROPERTY, PairsRow(p.userProperties))]
  }

  function PubAckFrom(d: Decoded): PubAckProperties {
    PubAckProperties(
      GetBytes(d, REASON_STRING),
      GetPairs(d))
  }

  lemma PubAckLawful(p: PubAckProperties)
    ensures Lawful(p, PubAckRows, PubAckFrom)
  {
    var rows := PubAckRows(p);
    AllRowsReadBack(rows);
    var d := Load(map[], Present(rows));
    hide Load, Present;
    assert Get(d, rows[0].0) == rows[0].1;
    assert Get(d, rows[1].0) == rows[1].1;
  }

  datatype SubscribeProperties = SubscribeProperties(
    subscriptionIdentifier: Option<int>,
    userProperties: Pairs)

  function SubscribeRows(p: SubscribeProperties): Rows {
    [(SUBSCRIPTION_IDENTIFIER, IntRow(p.subscriptionIdentifier)),
     (USER_PROPERTY, PairsRow(p.userProperties))]
  }

  function SubscribeFrom(d: Decoded): SubscribeProperties {
    SubscribeProperties(
      GetInt(d, SUBSCRIPTION_IDENTIFIER),
      GetPairs(d))
  }

  lemma SubscribeLawful(p: SubscribeProperties)
    ensures Lawful(p, SubscribeRows, SubscribeFrom)
  {
    var rows := SubscribeRows(p);
    AllRowsReadBack(rows);
    var d := Load(map[], Present(rows));
    hide Load, Present;
    assert Get(d, rows[0].0) == rows[0].1;
    assert Get(d, rows[1].0) == rows[1].1;
  }

  datatype SubAckProperties = SubAckProperties(
    reasonString: Option<Bytes>,
    userProperties: Pairs)

  function SubAckRows(p: SubAckProperties): Rows {
    [(REASON_STRING, BytesRow(p.reasonString)),
     (USER_PROPERTY, PairsRow(p.userProperties))]
  }

  function SubAckFrom(d: Decoded): SubAckProperties {
    SubAckProperties(
      GetBytes(d, REASON_STRING),
      GetPairs(d))
  }

  lemma SubAckLawful(p: SubAckProperties)
    ensures Lawful(p, SubAckRows, SubAckFrom)
  {
    var rows := SubAckRows(p);
    AllRowsReadBack(rows);
    var d := Load(map[], Present(rows));
    hide Load, Present;
    assert Get(d, rows[0].0) == rows[0].1;
    assert Get(d, rows[1].0) == rows[1].1;
  }

  datatype UnsubscribeProperties = UnsubscribeProperties(
    userProperties: Pairs)

  function UnsubscribeRows(p: UnsubscribeProperties): Rows {
    [(USER_PROPERTY, PairsRow(p.userProperties))]
  }

  function UnsubscribeFrom(d: Decoded): UnsubscribeProperties {
    UnsubscribeProperties(
      GetPairs(d))
  }

  lemma UnsubscribeLawful(p: UnsubscribeProperties)
    ensures Lawful(p, UnsubscribeRows, UnsubscribeFrom)
  {
    var rows := UnsubscribeRows(p);
    AllRowsReadBack(rows);
    var d := Load(map[], Present(rows));
    hide Load, Present;
    assert Get(d, rows[0].0) == rows[0].1;
  }

  datatype UnsubAckProperties = UnsubAckProperties(
    reasonString: Option<Bytes>,
    userProperties: Pairs)

  function UnsubAckRows(p: UnsubAckProperties): Rows {
    [(REASON_STRING, BytesRow(p.reasonString)),
     (USER_PROPERTY, PairsRow(p.userProperties))]
  }

  function UnsubAckFrom(d: Decoded): UnsubAckProperties {
    UnsubAckProperties(
      GetBytes(d, REASON_STRING),
      GetPairs(d))
  }

  lemma UnsubAckLawful(p: UnsubAckProperties)
    ensures Lawful(p, UnsubAckRows, UnsubAckFrom)
  {
    var rows := UnsubAckRows(p);
    AllRowsReadBack(rows);
    var d := Load(map[], Present(rows));
    hide Load, Present;
    assert Get(d, rows[0].0) == rows[0].1;
    assert Get(d, rows[1].0) == rows[1].1;
  }

  datatype DisconnectProperties = DisconnectProperties(
    sessionExpiryInterval: Option<int>,
    reasonString: Option<Bytes>,
    serverReference: Option<Bytes>,
    userProperties: Pairs)

  function DisconnectRows(p: DisconnectProperties): Rows {
    [(SESSION_EXPIRY_INTERVAL, IntRow(p.sessionExpiryInterval)),
     (REASON_STRING, BytesRow(p.reasonString)),
     (SERVER_REFERENCE, BytesRow(p.serverReference)),
     (USER_PROPERTY, PairsRow(p.userProperties))]
  }

  function DisconnectFrom(d: Decoded): DisconnectProperties {
    DisconnectProperties(
      GetInt(d, SESSION_EXPIRY_INTERVAL),
      GetBytes(d, REASON_STRING),
      GetBytes(d, SERVER_REFERENCE),
      GetPairs(d))
  }

  lemma DisconnectLawful(p: DisconnectProperties)
    ensures Lawful(p, DisconnectRows, DisconnectFrom)
  {
    var rows := DisconnectRows(p);
    AllRowsReadBack(rows);
    var d := Load(map[], Present(rows));
    hide Load, Present;
    assert Get(d, rows[0].0) == rows[0].1;
    assert Get(d, rows[1].0) == rows[1].1;
    assert Get(d, rows[2].0) == rows[2].1;
    assert Get(d, rows[3].0) == rows[3].1;
  }

  datatype AuthProperties = AuthProperties(
    authenticationMethod: Option<Bytes>,
    authenticationData: Option<Bytes>,
    reasonString: Option<Bytes>,
    userProperties: Pairs)

  function AuthRows(p: AuthProperties): Rows {
    [(AUTHENTICATION_METHOD, BytesRow(p.authenticationMethod)),
     (AUTHENTICATION_DATA, BytesRow(p.authenticationData)),
     (REASON_STRING, BytesRow(p.reasonString)),
     (USER_PROPERTY, PairsRow(p.userProperties))]
  }

  function AuthFrom(d: Decoded): AuthProperties {
    AuthProperties(
      GetBytes(d, AUTHENTICATION_METHOD),
      GetBytes(d, AUTHENTICATION_DATA),
      GetBytes(d, REASON_STRING),
      GetPairs(d))
  }

  lemma AuthLawful(p: AuthProperties)
    ensures Lawful(p, AuthRows, AuthFrom)
  {
    var rows := AuthRows(p);
    AllRowsReadBack(rows);
    var d := Load(map[], Present(rows));
    hide Load, Present;
    assert Get(d, rows[0].0) == rows[0].1;
    assert Get(d, rows[1].0) == rows[1].1;
    assert Get(d, rows[2].0) == rows[2].1;
    assert Get(d, rows[3].0) == rows[3].1;
  }
}
