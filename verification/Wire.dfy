/**
 * Reading fields off the front of a buffer, and the operations by which an encoder fills one.
 * `src/mqtt_proto/buffer.rs`, `src/mqtt_proto/binary_data.rs`, `src/mqtt_proto/byte_str.rs`.
 */
module Wire {
  import opened Wrappers
  import opened Bytes
  import opened Packets
  import TopicFilter
  import Varint

  datatype DecodeError =
    | IncompletePacket
    | TrailingGarbage
    | VarintTooHigh
    | InvalidByteStr
    | BadTopic(topic: TopicFilter.Error)
    | BadFilter(filter: TopicFilter.Error)
    | ZeroPacketIdentifier
    | UnrecognizedPacket
    | UnmodelledPacket
    | UnrecognizedQoS
    | UnrecognizedRetainHandling
    | UnrecognizedReason
    | UnrecognizedFlag
    | ZeroValue
    | UnrecognizedProperty
    | UnexpectedProperty
    | DuplicateProperty
    | MissingAuthenticationMethod
    | PublishDupAtMostOnce
    | ConnectReservedSet
    | WillFlagsWithoutWill
    | UnrecognizedProtocolName
    | UnrecognizedProtocolVersion
    | NoTopics
    | NoLocalWithSharedSubscription
    | SubscriptionOptionsReservedSet

  /** A value read from the front of a buffer, and what is left of the buffer. */
  type Read<T> = Result<(T, Bytes), DecodeError>

  function GetU8(src: Bytes): (r: Read<byte>)
    ensures r.Success? ==> |src| == 1 + |r.value.1|
  {
    if |src| < 1 then Failure(IncompletePacket) else Success((src[0], src[1..]))
  }

  function GetU16(src: Bytes): (r: Read<u16>)
    ensures r.Success? ==> |src| == 2 + |r.value.1|
  {
    if |src| < 2 then Failure(IncompletePacket) else Success((U16At(src), src[2..]))
  }

  function GetU32(src: Bytes): (r: Read<u32>)
    ensures r.Success? ==> |src| == 4 + |r.value.1|
  {
    if |src| < 4 then Failure(IncompletePacket) else Success((U32At(src), src[4..]))
  }

  function GetPacketId(src: Bytes): (r: Read<PacketId>)
    ensures r.Success? ==> |src| == 2 + |r.value.1|
  {
    var (n, rest) :- GetU16(src);
    if n == 0 then Failure(ZeroPacketIdentifier) else Success((n, rest))
  }

  /** A byte that must be 0 or 1. */
  function GetFlag(src: Bytes): (r: Read<bool>)
    ensures r.Success? ==> |src| == 1 + |r.value.1|
  {
    var (b, rest) :- GetU8(src);
    if b > 1 then Failure(UnrecognizedFlag) else Success((b == 1, rest))
  }

  function GetVarint(src: Bytes): (r: Read<nat>)
    ensures r.Success? ==> r.value.0 < Varint.LIMIT && |src| >= |Varint.Encode(r.value.0).value| + |r.value.1|
  {
    Varint.EncodeIsShortest(src);
    match Varint.Decode(src)
    case Complete(v, n) => Success((v, src[n..]))
    case Incomplete => Failure(IncompletePacket)
    case TooHigh => Failure(VarintTooHigh)
  }

  /** `BinaryData::decode`. */
  function GetBinary(src: Bytes): (r: Read<Text>)
    ensures r.Success? ==> |src| == 2 + |r.value.0| + |r.value.1|
  {
    if |src| < 2 then Failure(IncompletePacket)
    else
      var n := U16At(src);
      if |src| < 2 + n then Failure(IncompletePacket)
      else Success((src[2..2 + n], src[2 + n..]))
  }

  /** `ByteStr::decode`. */
  function GetText(ok: Bytes -> bool, src: Bytes): (r: Read<Text>)
    ensures r.Success? ==> ok(r.value.0) && |src| == 2 + |r.value.0| + |r.value.1|
  {
    var (t, rest) :- GetBinary(src);
    if ok(t) then Success((t, rest)) else Failure(InvalidByteStr)
  }

  /** `Topic::decode`. */
  function GetTopic(ok: Bytes -> bool, src: Bytes): (r: Read<Text>)
    ensures r.Success? ==> TopicFilter.ValidTopic(ok, r.value.0) && |src| == 2 + |r.value.0| + |r.value.1|
  {
    var (t, rest) :- GetText(ok, src);
    match TopicFilter.ParseTopic(ok, t)
    case Success(topic) => Success((topic, rest))
    case Failure(e) => Failure(BadTopic(e))
  }

  /** `Filter::decode`. */
  function GetFilter(ok: Bytes -> bool, src: Bytes): (r: Read<TopicFilter.Filter>)
    ensures r.Success? ==> ParsedFilter(ok, r.value.0) && |src| == 2 + |r.value.0.text| + |r.value.1|
  {
    var (t, rest) :- GetText(ok, src);
    match TopicFilter.ParseFilter(ok, t)
    case Success(filter) => Success((filter, rest))
    case Failure(e) => Failure(BadFilter(e))
  }

  /** The filters that the constructor hands out. */
  predicate ParsedFilter(ok: Bytes -> bool, f: TopicFilter.Filter) {
    |f.text| <= 0xFFFF && TopicFilter.ParseFilter(ok, f.text) == Success(f)
  }

  // --- Encoding ---

  datatype EncodeError = SubscriptionIdTooHigh | RemainingLengthTooHigh | WillTooLarge | EmptySubscribe

  /** What an encoder does to its destination: copy bytes, or hand over a buffer without copying. */
  datatype Op = Put(bytes: Bytes) | Share(bytes: Bytes)

  type Encoded = Result<seq<Op>, EncodeError>

  function OpsBytes(ops: seq<Op>): Bytes {
    if ops == [] then [] else ops[0].bytes + OpsBytes(ops[1..])
  }

  lemma {:induction false} OpsConcat(a: seq<Op>, b: seq<Op>)
    ensures OpsBytes(a + b) == OpsBytes(a) + OpsBytes(b)
  {
    if a == [] {
      assert a + b == b;
    } else {
      OpsConcat(a[1..], b);
      assert (a + b)[1..] == a[1..] + b && (a + b)[0] == a[0];
      assert a[0].bytes + (OpsBytes(a[1..]) + OpsBytes(b)) == a[0].bytes + OpsBytes(a[1..]) + OpsBytes(b);
    }
  }

  function TextBytes(t: Text): (b: Bytes)
    ensures |b| == 2 + |t|
  {
    U16Bytes(|t|) + t
  }

  /** `BinaryData::encode` and `ByteStr::encode`: the buffer already holds the length prefix. */
  function TextOp(t: Text): Op {
    Share(TextBytes(t))
  }

  // --- Fields come back as they were written ---

  lemma U8Back(b: byte, rest: Bytes)
    ensures GetU8([b] + rest) == Success((b, rest))
  {
  }

  lemma U16Back(n: u16, rest: Bytes)
    ensures GetU16(U16Bytes(n) + rest) == Success((n, rest))
  {
  }

  lemma U32Back(n: u32, rest: Bytes)
    ensures GetU32(U32Bytes(n) + rest) == Success((n, rest))
  {
  }

  lemma VarintBack(n: nat, rest: Bytes)
    requires n < Varint.LIMIT
    ensures GetVarint(Varint.Encode(n).value + rest) == Success((n, rest))
  {
    Varint.RoundTrip(n, rest);
    var e := Varint.Encode(n).value;
    assert (e + rest)[|e|..] == rest;
  }

  lemma BinaryBack(t: Text, rest: Bytes)
    ensures GetBinary(TextBytes(t) + rest) == Success((t, rest))
  {
  }

  lemma TextBack(ok: Bytes -> bool, t: Text, rest: Bytes)
    requires ok(t)
    ensures GetText(ok, TextBytes(t) + rest) == Success((t, rest))
  {
  }

  lemma TopicBack(ok: Bytes -> bool, t: Text, rest: Bytes)
    requires TopicFilter.ValidTopic(ok, t)
    ensures GetTopic(ok, TextBytes(t) + rest) == Success((t, rest))
  {
  }

  lemma FilterBack(ok: Bytes -> bool, f: TopicFilter.Filter, rest: Bytes)
    requires ParsedFilter(ok, f)
    ensures GetFilter(ok, TextBytes(f.text) + rest) == Success((f, rest))
  {
  }
}
