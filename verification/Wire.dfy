/** Wire format primitives: big-endian integers, length-prefixed fields, variable-length integers. */
module Wire {
  import opened Util

  type byte = x: int | 0 <= x < 256
  type Bytes = seq<byte>

  /** The exceptions the codec raises. */
  datatype CodecError = ValueError | StructError | IndexError | PacketTooLarge(size: int, limit: int)

  type Coded<T> = Result<T, CodecError>

  /** What a loop that already produced `a` ends with when the rest of its work yields `r`. */
  function Prepend<T>(a: seq<T>, r: Coded<seq<T>>): Coded<seq<T>> {
    if r.Ok? then Ok(a + r.value) else r
  }

  const MAX_VARINT: int := 268_435_455

  /** `bs` stands in `buf` at position `pos`. */
  predicate Stands(buf: Bytes, pos: nat, bs: Bytes) {
    pos + |bs| <= |buf| && buf[pos..pos + |bs|] == bs
  }

  lemma StandsSplit(buf: Bytes, pos: nat, a: Bytes, b: Bytes)
    requires Stands(buf, pos, a + b)
    ensures Stands(buf, pos, a) && Stands(buf, pos + |a|, b)
  {
    assert buf[pos..pos + |a|] == buf[pos..pos + |a + b|][..|a|];
    assert buf[pos + |a|..pos + |a + b|] == buf[pos..pos + |a + b|][|a|..];
  }

  lemma StandsAt(buf: Bytes, pos: nat, bs: Bytes, i: nat)
    requires Stands(buf, pos, bs) && i < |bs|
    ensures buf[pos + i] == bs[i]
  {
    assert buf[pos + i] == buf[pos..pos + |bs|][i];
  }

  // Fixed-width integers: `struct.pack("!H", n)` and `struct.pack("!I", n)`.

  function PackU8(n: int): Coded<Bytes> {
    if 0 <= n < 256 then Ok([n]) else Err(StructError)
  }

  function PackU16(n: int): Coded<Bytes> {
    if 0 <= n < 0x1_0000 then
      var hi: int := n / 256;
      var lo: int := n % 256;
      Ok([hi, lo])
    else Err(StructError)
  }

  function PackU32(n: int): Coded<Bytes> {
    if 0 <= n < 0x1_0000_0000 then
      var hi: int := n / 0x1_0000;
      var lo: int := n % 0x1_0000;
      Ok(PackU16(hi).value + PackU16(lo).value)
    else Err(StructError)
  }

  /** `bytes([n])`. */
  function OneByte(n: int): Coded<Bytes> {
    if 0 <= n < 256 then Ok([n]) else Err(ValueError)
  }

  function ByteAt(buf: Bytes, pos: nat): Coded<byte> {
    if pos < |buf| then Ok(buf[pos]) else Err(IndexError)
  }

  function UnpackU16(buf: Bytes, pos: nat): Coded<nat> {
    if pos + 2 <= |buf| then Ok((buf[pos] as int) * 256 + buf[pos + 1] as int) else Err(StructError)
  }

  function UnpackU32(buf: Bytes, pos: nat): Coded<nat> {
    if pos + 4 <= |buf| then
      Ok(((buf[pos] as int) * 256 + buf[pos + 1] as int) * 0x1_0000 + (buf[pos + 2] as int) * 256 + buf[pos + 3] as int)
    else Err(StructError)
  }

  lemma U16RoundTrip(n: int, buf: Bytes, pos: nat)
    requires PackU16(n).Ok? && Stands(buf, pos, PackU16(n).value)
    ensures |PackU16(n).value| == 2 && UnpackU16(buf, pos) == Ok(n)
  {
    StandsAt(buf, pos, PackU16(n).value, 0);
    StandsAt(buf, pos, PackU16(n).value, 1);
  }

  lemma U32RoundTrip(n: int, buf: Bytes, pos: nat)
    requires PackU32(n).Ok? && Stands(buf, pos, PackU32(n).value)
    ensures |PackU32(n).value| == 4 && UnpackU32(buf, pos) == Ok(n)
  {
    var hi: int := n / 0x1_0000;
    var lo: int := n % 0x1_0000;
    StandsSplit(buf, pos, PackU16(hi).value, PackU16(lo).value);
    U16RoundTrip(hi, buf, pos);
    U16RoundTrip(lo, buf, pos + 2);
  }

  // Length-prefixed fields. A string stands for its UTF-8 bytes, so both field kinds share one shape.

  function EncodeField(data: Bytes): Coded<Bytes> {
    var prefix :- PackU16(|data|);
    Ok(prefix + data)
  }

  function DecodeField(buf: Bytes, offset: nat): (r: Coded<(Bytes, nat)>)
    ensures r.Ok? ==> r.value.1 >= 2 && offset + r.value.1 <= |buf|
  {
    if offset + 2 > |buf| then Err(ValueError)
    else
      var length := UnpackU16(buf, offset).value;
      if offset + 2 + length > |buf| then Err(ValueError)
      else Ok((buf[offset + 2..offset + 2 + length], 2 + length))
  }

  lemma FieldRoundTrip(data: Bytes, buf: Bytes, pos: nat)
    requires EncodeField(data).Ok? && Stands(buf, pos, EncodeField(data).value)
    ensures |EncodeField(data).value| == 2 + |data|
    ensures DecodeField(buf, pos) == Ok((data, 2 + |data|))
  {
    StandsSplit(buf, pos, PackU16(|data|).value, data);
    U16RoundTrip(|data|, buf, pos);
  }

  // Variable-length integers (section 1.5.5 of MQTT 5.0).

  /** Seven bits a byte, least significant first, high bit set on all but the last. */
  function VarintBytes(value: nat): (bs: Bytes)
    ensures |bs| >= 1
  {
    if value < 128 then [value] else [value % 128 + 128] + VarintBytes(value / 128)
  }

  function EncodeVarintSpec(value: int): Coded<Bytes> {
    if value < 0 || value > MAX_VARINT then Err(ValueError) else Ok(VarintBytes(value))
  }

  method EncodeVarint(value: int) returns (r: Coded<Bytes>)
    ensures r == EncodeVarintSpec(value)
  {
    if value < 0 || value > MAX_VARINT {
      return Err(ValueError);
    }
    var v := value;
    var result: Bytes := [];
    while v >= 128
      invariant v >= 0 && result + VarintBytes(v) == VarintBytes(value)
    {
      result, v := result + [v % 128 + 128], v / 128;
    }
    r := Ok(result + [v]);
  }

  /** Value and width of the varint at `pos`, at most `budget` bytes long. */
  function ReadVarint(buf: Bytes, pos: nat, budget: nat): (r: Coded<(nat, nat)>)
    ensures r.Ok? ==> 1 <= r.value.1 <= budget && pos + r.value.1 <= |buf|
    decreases budget
  {
    if budget == 0 || pos >= |buf| then Err(ValueError)
    else if buf[pos] < 128 then Ok((buf[pos], 1))
    else
      var rest :- ReadVarint(buf, pos + 1, budget - 1);
      Ok(((buf[pos] as int) - 128 + 128 * rest.0, 1 + rest.1))
  }

  /** The varint result when `i` bytes contributed `value` and the next one weighs `multiplier`. */
  ghost function Continue(buf: Bytes, offset: nat, i: nat, multiplier: nat, value: nat): Coded<(nat, nat)>
    requires i <= 4
  {
    var rest :- ReadVarint(buf, offset + i, 4 - i);
    Ok((value + multiplier * rest.0, i + rest.1))
  }

  lemma VarintStep(buf: Bytes, offset: nat, i: nat, multiplier: nat, value: nat)
    requires i < 4 && offset + i < |buf|
    ensures buf[offset + i] < 128 ==>
              Continue(buf, offset, i, multiplier, value) == Ok((value + (buf[offset + i] as int) % 128 * multiplier, i + 1))
    ensures buf[offset + i] >= 128 ==>
              Continue(buf, offset, i, multiplier, value) ==
              Continue(buf, offset, i + 1, multiplier * 128, value + (buf[offset + i] as int) % 128 * multiplier)
  {
    var b := buf[offset + i] as int;
    var rest := ReadVarint(buf, offset + i + 1, 4 - (i + 1));
    if b >= 128 && rest.Ok? {
      var v := rest.value.0;
      assert multiplier * (b - 128 + 128 * v) == (b - 128) * multiplier + multiplier * 128 * v;
    }
  }

  method DecodeVarint(buf: Bytes, offset: nat) returns (r: Coded<(nat, nat)>)
    ensures r == ReadVarint(buf, offset, 4)
  {
    var multiplier := 1;
    var value := 0;
    for i := 0 to 4
      invariant multiplier >= 0 && value >= 0
      invariant ReadVarint(buf, offset, 4) == Continue(buf, offset, i, multiplier, value)
    {
      var pos := offset + i;
      if pos >= |buf| {
        return Err(ValueError);
      }
      var b := buf[pos] as int;
      VarintStep(buf, offset, i, multiplier, value);
      value := value + b % 128 * multiplier;
      if b < 128 {
        return Ok((value, i + 1));
      }
      multiplier := multiplier * 128;
    }
    r := Err(ValueError);
  }

  function Pow128(n: nat): nat {
    if n == 0 then 1 else 128 * Pow128(n - 1)
  }

  lemma {:induction false} VarintRoundTripWithin(value: nat, buf: Bytes, pos: nat, budget: nat)
    requires budget >= 1 && value < Pow128(budget) && Stands(buf, pos, VarintBytes(value))
    ensures ReadVarint(buf, pos, budget) == Ok((value, |VarintBytes(value)|))
    decreases budget
  {
    StandsAt(buf, pos, VarintBytes(value), 0);
    if value >= 128 {
      StandsSplit(buf, pos, [value % 128 + 128], VarintBytes(value / 128));
      VarintRoundTripWithin(value / 128, buf, pos + 1, budget - 1);
    }
  }

  lemma VarintRoundTrip(value: int, buf: Bytes, pos: nat)
    requires EncodeVarintSpec(value).Ok? && Stands(buf, pos, EncodeVarintSpec(value).value)
    ensures ReadVarint(buf, pos, 4) == Ok((value, |VarintBytes(value)|))
  {
    assert Pow128(4) == 128 * (128 * (128 * (128 * Pow128(0))));
    VarintRoundTripWithin(value, buf, pos, 4);
  }
}
