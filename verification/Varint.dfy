/** Variable byte integers: section 1.5.5 of MQTT Version 5.0, `decode_varint` and `encode_varint`. */
module Varint {
  import opened Wrappers
  import opened Bytes

  const MAX_LENGTH: nat := 4
  const LIMIT: nat := 0x1000_0000

  /** `Complete(value, length)` consumed `length` bytes; `Incomplete` ran out of input. */
  datatype Decoded = Complete(value: nat, length: nat) | Incomplete | TooHigh

  function DecodeAfter(src: Bytes, read: nat): (r: Decoded)
    requires read < MAX_LENGTH
    ensures r.Complete? ==> 1 <= r.length <= |src| && r.length <= MAX_LENGTH - read
    decreases MAX_LENGTH - read
  {
    if src == [] then Incomplete
    else if src[0] < 0x80 then Complete(src[0], 1)
    else if read + 1 == MAX_LENGTH then TooHigh
    else
      match DecodeAfter(src[1..], read + 1)
      case Complete(v, n) => Complete(src[0] - 0x80 + 0x80 * v, n + 1)
      case other => other
  }

  /** What a decoder makes of `src`: the value is the base-128 number whose digits come least first. */
  function Decode(src: Bytes): Decoded {
    DecodeAfter(src, 0)
  }

  function Digits(n: nat): (b: Bytes)
    ensures |b| >= 1
    decreases n
  {
    if n < 0x80 then [n] else [n % 0x80 + 0x80] + Digits(n / 0x80)
  }

  /** The shortest encoding, or `None` for a number that four bytes cannot hold. */
  function Encode(n: nat): (r: Option<Bytes>)
    ensures r.Some? <==> n < LIMIT
    ensures r.Some? ==> 1 <= |r.value| <= MAX_LENGTH
  {
    if n < LIMIT then
      DigitsLength(n);
      Some(Digits(n))
    else None
  }

  lemma DigitsLength(n: nat)
    ensures n < LIMIT ==> |Digits(n)| <= MAX_LENGTH
    ensures n >= LIMIT ==> |Digits(n)| > MAX_LENGTH
    ensures |Digits(n)| == if n < 0x80 then 1 else 1 + |Digits(n / 0x80)|
    ensures n < 0x80 ==> |Digits(n)| == 1
    ensures 0x80 <= n < 0x4000 ==> |Digits(n)| == 2
    ensures 0x4000 <= n < 0x20_0000 ==> |Digits(n)| == 3
    ensures 0x20_0000 <= n < LIMIT ==> |Digits(n)| == 4
  {
  }

  lemma {:induction false} DigitsRoundTrip(n: nat, rest: Bytes, read: nat)
    requires read + |Digits(n)| <= MAX_LENGTH
    ensures DecodeAfter(Digits(n) + rest, read) == Complete(n, |Digits(n)|)
    decreases n
  {
    if n >= 0x80 {
      DigitsRoundTrip(n / 0x80, rest, read + 1);
      assert (Digits(n) + rest)[1..] == Digits(n / 0x80) + rest;
    }
  }

  /** decode(encode(n) + rest) yields n and stops exactly where rest begins. */
  lemma RoundTrip(n: nat, rest: Bytes)
    requires n < LIMIT
    ensures Decode(Encode(n).value + rest) == Complete(n, |Encode(n).value|)
  {
    DigitsLength(n);
    DigitsRoundTrip(n, rest, 0);
  }

  lemma {:induction false} DecodedDigits(src: Bytes, read: nat)
    requires read < MAX_LENGTH
    ensures var d := DecodeAfter(src, read);
      d.Complete? ==> |Digits(d.value)| <= d.length
    decreases MAX_LENGTH - read
  {
    if src != [] && src[0] >= 0x80 && read + 1 < MAX_LENGTH {
      DecodedDigits(src[1..], read + 1);
      var d := DecodeAfter(src, read);
      if d.Complete? {
        DigitsLength(d.value);
      }
    }
  }

  /** No byte string that decodes to n is shorter than the encoding of n. */
  lemma EncodeIsShortest(src: Bytes)
    ensures var d := Decode(src);
      d.Complete? ==> d.value < LIMIT && |Encode(d.value).value| <= d.length
  {
    DecodedDigits(src, 0);
    var d := Decode(src);
    if d.Complete? {
      DigitsLength(d.value);
    }
  }

  /** A larger number never has a shorter encoding. */
  lemma LengthIsMonotone(m: nat, n: nat)
    requires m <= n < LIMIT
    ensures |Encode(m).value| <= |Encode(n).value|
  {
    DigitsLength(m);
    DigitsLength(n);
  }

  /** A decision, once taken, does not change when more bytes arrive. */
  lemma AppendKeepsDecision(src: Bytes, more: Bytes)
    requires !Decode(src).Incomplete?
    ensures Decode(src + more) == Decode(src)
  {
  }

  /** More input is asked for exactly on fewer than four bytes that all carry the continuation bit. */
  lemma IncompleteExactly(src: Bytes)
    ensures Decode(src).Incomplete? <==>
      |src| < MAX_LENGTH && forall i :: 0 <= i < |src| ==> src[i] >= 0x80
  {
  }

  /** `v << (7 * i)`. */
  function ShiftLeft(v: nat, i: nat): nat
    requires i < MAX_LENGTH
  {
    if i == 0 then v
    else if i == 1 then v * 0x80
    else if i == 2 then v * 0x4000
    else v * 0x20_0000
  }

  /** The decoding loop: low seven bits first, stopping at the first byte without the continuation bit. */
  method DecodeLoop(src: Bytes) returns (r: Decoded)
    ensures r == Decode(src)
  {
    var result: nat, read: nat, rest := 0, 0, src;
    while true
      invariant read < MAX_LENGTH
      invariant Decode(src) == Shifted(DecodeAfter(rest, read), result, read)
      decreases MAX_LENGTH - read
    {
      hide ShiftLeft;
      if rest == [] {
        return Incomplete;
      }
      var encoded := rest[0];
      ShiftStep(rest, result, read);
      result := result + ShiftLeft(encoded % 0x80, read);
      rest := rest[1..];
      read := read + 1;
      if encoded < 0x80 {
        return Complete(result, read);
      }
      if read == MAX_LENGTH {
        return TooHigh;
      }
    }
  }

  /** A decoding of what is left, put behind the digits read before. */
  function Shifted(d: Decoded, result: nat, read: nat): Decoded
    requires read < MAX_LENGTH
  {
    match d
    case Complete(v, n) => Complete(result + ShiftLeft(v, read), read + n)
    case other => other
  }

  lemma ShiftStep(rest: Bytes, result: nat, read: nat)
    requires read < MAX_LENGTH && rest != []
    ensures rest[0] < 0x80 ==> rest[0] % 0x80 == rest[0] as int
    ensures rest[0] >= 0x80 && read + 1 < MAX_LENGTH ==>
      Shifted(DecodeAfter(rest, read), result, read)
      == Shifted(DecodeAfter(rest[1..], read + 1), result + ShiftLeft(rest[0] % 0x80, read), read + 1)
  {
  }

  lemma DigitsNext(n: nat)
    ensures Digits(n) == if n / 0x80 == 0 then [n % 0x80] else [n % 0x80 + 0x80] + Digits(n / 0x80)
  {
  }

  /** The encoding loop, which gives up after four bytes. */
  method EncodeLoop(n: u32) returns (r: Option<Bytes>)
    ensures r == Encode(n)
  {
    hide Digits;
    var item, out := n, [];
    DigitsLength(n);
    while true
      invariant |out| < MAX_LENGTH
      invariant Digits(n) == out + Digits(item)
      decreases item
    {
      var encoded := item % 0x80;
      var next := item / 0x80;
      if next > 0 {
        encoded := encoded + 0x80;
      }
      DigitsNext(item);
      assert next > 0 ==> out + ([encoded] + Digits(next)) == out + [encoded] + Digits(next);
      out := out + [encoded];
      item := next;
      if item == 0 {
        return Some(out);
      }
      if |out| == MAX_LENGTH {
        return None;
      }
    }
  }
}
