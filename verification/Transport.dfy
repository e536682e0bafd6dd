/**
 * The flushing writer and the framing reader: `src/io/writer.rs` and `src/io/reader.rs`.
 *
 * The network behind each is an arbitrary script: how many bytes a write takes, how the bytes arrive in chunks.
 */
module Transport {
  import opened Wrappers
  import opened Bytes
  import opened Packets
  import opened Wire
  import opened Codec
  import opened Accumulators
  import opened Buffers
  import RoundTrip
  import Varint

  datatype IoError = UnexpectedEof | BrokenPipe | OutOfMemory | Malformed(decode: DecodeError) | Rejected(encode: EncodeError)

  // --- Writing ---

  /** What the network does with one write: take up to `n` bytes, or fail. */
  datatype Offer = Takes(n: nat) | Breaks

  /** The writes numbered `from` up to `to` each took something. */
  ghost predicate AllTaken(offers: nat -> Offer, from: nat, to: nat) {
    forall k :: from <= k < to ==> offers(k).Takes? && offers(k).n > 0
  }

  lemma TakenFurther(offers: nat -> Offer, from: nat, mid: nat, to: nat)
    requires from <= mid <= to && AllTaken(offers, from, mid)
    ensures AllTaken(offers, from, to) <==> AllTaken(offers, mid, to)
  {
  }

  /** The flushes numbered `from` up to `to` succeeded. */
  ghost predicate AllFlushed(flushes: nat -> bool, from: nat, to: nat) {
    forall k :: from <= k < to ==> flushes(k)
  }

  /** A stream that answers its k-th write and its k-th flush as the scripts say. */
  class OutStream {
    const offers: nat -> Offer
    const flushes: nat -> bool
    var writes: nat
    var flushed: nat
    var accepted: Bytes

    constructor (offers: nat -> Offer, flushes: nat -> bool)
      ensures this.offers == offers && this.flushes == flushes && accepted == [] && writes == flushed == 0
    {
      this.offers, this.flushes := offers, flushes;
      writes, flushed, accepted := 0, 0, [];
    }

    method WriteVectored(iovecs: seq<Bytes>) returns (r: Result<nat, IoError>)
      modifies this`writes, this`accepted
      ensures writes == old(writes) + 1
      ensures match offers(old(writes))
        case Breaks => r == Failure(BrokenPipe) && accepted == old(accepted)
        case Takes(n) =>
          && r == Success(if n < |Flatten(iovecs)| then n else |Flatten(iovecs)|)
          && accepted == old(accepted) + Flatten(iovecs)[..r.value]
    {
      var offer := offers(writes);
      writes := writes + 1;
      if offer.Breaks? {
        return Failure(BrokenPipe);
      }
      var data := Flatten(iovecs);
      var n := if offer.n < |data| then offer.n else |data|;
      accepted := accepted + data[..n];
      return Success(n);
    }

    method Flush() returns (r: Result<(), IoError>)
      modifies this`flushed
      ensures flushed == old(flushed) + 1 && (r.Success? <==> flushes(old(flushed)))
    {
      r := if flushes(flushed) then Success(()) else Failure(BrokenPipe);
      flushed := flushed + 1;
    }
  }

  /** `IoSlice::advance_slices`: drop what is written, keep the rest of the buffer it ends in. */
  function Advance(iovecs: seq<Bytes>, n: nat): (rest: seq<Bytes>)
    requires n <= |Flatten(iovecs)|
    ensures Flatten(rest) == Flatten(iovecs)[n..]
  {
    if iovecs == [] then []
    else if n >= |iovecs[0]| then
      assert Flatten(iovecs)[n..] == Flatten(iovecs[1..])[n - |iovecs[0]|..];
      Advance(iovecs[1..], n - |iovecs[0]|)
    else
      assert Flatten(iovecs)[n..] == iovecs[0][n..] + Flatten(iovecs[1..]);
      var rest := [iovecs[0][n..]] + iovecs[1..];
      assert rest[1..] == iovecs[1..];
      rest
  }

  lemma PrefixGrows(content: Bytes, done: nat, batch: Bytes, n: nat)
    requires done <= |content| && batch <= content[done..] && n <= |batch|
    ensures content[..done] + batch[..n] == content[..done + n]
    ensures content[done..][n..] == content[done + n..]
  {
  }

  /** Of the content, the first `written` bytes are on the wire, and all but the first `drained` are still queued. */
  ghost predicate PartlyFlushed(sent: Bytes, content: Bytes, accepted: Bytes, queued: Bytes, written: nat, drained: nat) {
    && drained <= written <= |content|
    && accepted == sent + content[..written]
    && queued == content[drained..]
  }

  class Writer {
    const stream: OutStream
    const buf: IovecsAccumulator

    ghost predicate Valid()
      reads this, buf
    {
      buf.Valid() && buf.filled == []
    }

    constructor (stream: OutStream, buf: IovecsAccumulator)
      ensures this.stream == stream && this.buf == buf
    {
      this.stream, this.buf := stream, buf;
    }

    /** Everything accepted by the network, and then everything still queued. */
    ghost function Output(): Bytes
      reads this, buf, stream
    {
      stream.accepted + buf.Content()
    }

    /** One batch of buffers, written however the network takes it; it fails exactly if a write takes nothing. */
    method WriteBatch(iovecs: seq<Bytes>, totalLen: nat) returns (r: Result<(), IoError>, ghost written: nat)
      requires totalLen == |Flatten(iovecs)|
      modifies stream`writes, stream`accepted
      ensures written <= totalLen && stream.accepted == old(stream.accepted) + Flatten(iovecs)[..written]
      ensures r.Success? ==> written == totalLen
      ensures stream.writes >= old(stream.writes)
      ensures r.Success? <==> AllTaken(stream.offers, old(stream.writes), stream.writes)
    {
      hide Flatten;
      ghost var data := Flatten(iovecs);
      var done: nat, rest := 0, iovecs;
      written := 0;
      while done < totalLen
        invariant done <= totalLen && written == done
        invariant done < totalLen ==> Flatten(rest) == data[done..]
        invariant stream.accepted == old(stream.accepted) + data[..done]
        invariant stream.writes >= old(stream.writes) && AllTaken(stream.offers, old(stream.writes), stream.writes)
        decreases totalLen - done
      {
        var w := stream.WriteVectored(rest);
        if w.Failure? {
          return Failure(w.error), done;
        }
        if w.value == 0 {
          return Failure(UnexpectedEof), done;
        }
        PrefixGrows(data, done, data[done..], w.value);
        done := done + w.value;
        written := done;
        if done < totalLen {
          rest := Advance(rest, w.value);
        }
      }
      return Success(()), done;
    }

    /**
     * Writes out everything, 128 buffers at a time, and succeeds exactly if every write takes something and the stream
     * can be flushed. A failed flush has written a prefix of the content, and may keep part of it queued: a batch is
     * drained only once it is written as a whole.
     */
    method Flush() returns (r: Result<(), IoError>, ghost written: nat, ghost drained: nat)
      requires Valid()
      modifies buf, stream
      ensures Valid()
      ensures PartlyFlushed(old(stream.accepted), old(buf.Content()), stream.accepted, buf.Content(), written, drained)
      ensures r.Success? ==> written == drained == |old(buf.Content())| && stream.flushed == old(stream.flushed) + 1
      ensures stream.writes >= old(stream.writes) && old(stream.flushed) <= stream.flushed <= old(stream.flushed) + 1
      ensures r.Success? <==>
        && AllTaken(stream.offers, old(stream.writes), stream.writes)
        && AllFlushed(stream.flushes, old(stream.flushed), stream.flushed)
    {
      hide Flatten;
      ghost var content := buf.Content();
      written, drained := 0, 0;
      while true
        invariant Valid()
        invariant written == drained <= |content|
        invariant buf.Content() == content[drained..]
        invariant stream.accepted == old(stream.accepted) + content[..drained]
        invariant stream.writes >= old(stream.writes) && stream.flushed == old(stream.flushed)
        invariant AllTaken(stream.offers, old(stream.writes), stream.writes)
        decreases |content| - drained
      {
        ghost var before := stream.writes;
        ghost var n: nat;
        var done;
        r, done, n := FlushBatch();
        TakenFurther(stream.offers, old(stream.writes), before, stream.writes);
        PrefixGrows(content, drained, content[drained..], n);
        written := drained + n;
        if r.Failure? {
          return;
        }
        drained := written;
        if done {
          break;
        }
      }
      r := stream.Flush();
    }

    /** The first 128 buffers of the queue, which are drained only once they are written as a whole. */
    method FlushBatch() returns (r: Result<(), IoError>, done: bool, ghost n: nat)
      requires Valid()
      modifies buf, stream`writes, stream`accepted
      ensures Valid() && n <= |old(buf.Content())| && stream.accepted == old(stream.accepted) + old(buf.Content())[..n]
      ensures buf.Content() == if r.Success? then old(buf.Content())[n..] else old(buf.Content())
      ensures done ==> r.Success? && old(buf.Content()) == []
      ensures !done && r.Success? ==> n > 0
      ensures stream.writes >= old(stream.writes)
      ensures r.Success? <==> AllTaken(stream.offers, old(stream.writes), stream.writes)
    {
      hide Flatten;
      var iovecs, totalLen := buf.ToIovecs(128);
      FlattenEmpty(buf.chunks);
      ghost var queued := Flatten(buf.chunks);
      assert queued == buf.Content();
      if iovecs == [] {
        return Success(()), true, 0;
      }
      assert NoneEmpty(iovecs);
      FlattenEmpty(iovecs);
      r, n := WriteBatch(iovecs, totalLen);
      PrefixGrows(queued, 0, Flatten(iovecs), n);
      done := false;
      if r.Success? {
        buf.Drain(totalLen);
        assert buf.Content() == Flatten(buf.chunks);
      }
    }

    /**
     * Encodes a packet onto the queue, flushing first if the queue is long. `room` says whether the pool can grow the
     * buffer. Room is reserved for exactly what a counting pass asks for, and the encoding pass never needs more.
     * It fails exactly if that flush fails, the packet does not encode or there is no room.
     */
    method Write(p: Packet, room: bool) returns (r: Result<(), IoError>, ghost flushFailed: bool, ghost written: nat, ghost drained: nat)
      requires Valid() && Encodable(p)
      modifies buf, stream
      ensures Valid()
      ensures r.Success? <==> !flushFailed && EncodePacket(p).Success? && room
      ensures r.Success? ==> Output() == old(Output()) + OpsBytes(EncodePacket(p).value)
      ensures r.Failure? && !flushFailed ==> Output() == old(Output())
      ensures flushFailed ==>
        && old(|buf.chunks|) >= 118
        && PartlyFlushed(old(stream.accepted), old(buf.Content()), stream.accepted, buf.Content(), written, drained)
      ensures old(|buf.chunks|) < 118 ==>
        stream.accepted == old(stream.accepted) && stream.writes == old(stream.writes) && stream.flushed == old(stream.flushed)
      ensures stream.writes >= old(stream.writes) && stream.flushed >= old(stream.flushed)
      ensures !flushFailed <==>
        && AllTaken(stream.offers, old(stream.writes), stream.writes)
        && AllFlushed(stream.flushes, old(stream.flushed), stream.flushed)
    {
      hide EncodePacket, OpsBytes, Encodable, Flatten;
      var more := buf.CanAcceptMore();
      flushFailed, written, drained := false, 0, 0;
      if !more {
        ghost var before := buf.Content();
        r, written, drained := Flush();
        if r.Failure? {
          return r, true, written, drained;
        }
        assert before[..written] == before && before[drained..] == [];
      }
      assert Output() == old(Output());
      var sink := new Sink();
      var encoded := EncodePacketTo(p, sink);
      if encoded.Failure? {
        return Failure(Rejected(encoded.error)), false, written, drained;
      }
      assert sink.ops == EncodePacket(p).value;
      if !room {
        return Failure(OutOfMemory), false, written, drained;
      }
      ghost var queued := buf.Content();
      Enqueue(sink.ops);
      assert stream.accepted + (queued + OpsBytes(sink.ops)) == Output();
      return Success(()), false, written, drained;
    }

    /** Reserves what the counting pass asks for, and replays the operations into the queue. */
    method Enqueue(ops: seq<Op>)
      requires Valid()
      modifies buf
      ensures Valid() && buf.Content() == old(buf.Content()) + OpsBytes(ops)
    {
      hide OpsBytes;
      var needed := CountBytes(ops, false);
      buf.Reserve(needed);
      var done := buf.Apply(ops);
      assert done;
      buf.PutDone();
    }
  }

  // --- Reading ---

  /** A stream that delivers its bytes in chunks; reading past the last one yields nothing. */
  class InStream {
    var chunks: seq<Bytes>

    constructor (chunks: seq<Bytes>)
      ensures this.chunks == chunks
    {
      this.chunks := chunks;
    }

    method Read() returns (data: Bytes)
      modifies this
      ensures old(chunks) == [] ==> data == [] && chunks == []
      ensures old(chunks) != [] ==> data == old(chunks)[0] && chunks == old(chunks)[1..]
    {
      data := [];
      if chunks != [] {
        data := chunks[0];
        chunks := chunks[1..];
      }
    }
  }

  datatype Frame = Frame(first: byte, body: Bytes)

  /** The first packet of a stream of bytes, and where it ends; nothing here knows about chunks. */
  function NextFrame(stream: Bytes): Result<(Frame, Bytes), IoError> {
    match FixedHeader(stream)
    case Failure(e) => Failure(Malformed(e))
    case Success(None) => Failure(UnexpectedEof)
    case Success(Some((first, n, start))) =>
      if |stream| < start + n then Failure(UnexpectedEof)
      else Success((Frame(first, stream[start..start + n]), stream[start + n..]))
  }

  lemma HeaderStable(src: Bytes, more: Bytes)
    requires FixedHeader(src) != Success(None)
    ensures FixedHeader(src + more) == FixedHeader(src)
  {
  }

  class Reader {
    const stream: InStream
    var buf: Bytes

    constructor (stream: InStream)
      ensures this.stream == stream && buf == []
    {
      this.stream := stream;
      buf := [];
    }

    /** All bytes that this reader has yet to hand out. */
    ghost function Pending(): Bytes
      reads this, stream
    {
      buf + Flatten(stream.chunks)
    }

    /** Reads one chunk into the buffer; `false` at the end of the stream. */
    method Fill() returns (more: bool)
      requires NoneEmpty(stream.chunks)
      modifies this, stream
      ensures NoneEmpty(stream.chunks) && Pending() == old(Pending()) && old(buf) <= buf
      ensures more <==> old(stream.chunks) != []
      ensures more ==> |stream.chunks| < |old(stream.chunks)|
      ensures !more ==> stream.chunks == [] && buf == old(buf)
    {
      var data := stream.Read();
      buf := buf + data;
      more := data != [];
    }

    /** However the bytes are cut into chunks, the result is the first frame of their concatenation. */
    method Read() returns (r: Result<Frame, IoError>)
      requires NoneEmpty(stream.chunks)
      modifies this, stream
      ensures NoneEmpty(stream.chunks)
      ensures match NextFrame(old(Pending()))
        case Success((frame, rest)) => r == Success(frame) && Pending() == rest
        case Failure(e) => r == Failure(e) && Pending() == old(Pending())
    {
      var header: (byte, nat, nat);
      while true
        invariant NoneEmpty(stream.chunks) && Pending() == old(Pending())
        decreases |stream.chunks|
      {
        var decoded := FixedHeader(buf);
        if decoded != Success(None) {
          HeaderStable(buf, Flatten(stream.chunks));
          if decoded.Failure? {
            return Failure(Malformed(decoded.error));
          }
          header := decoded.value.value;
          break;
        }
        var more := Fill();
        if !more {
          assert Pending() == buf;
          return Failure(UnexpectedEof);
        }
      }
      var (first, n, start) := header;
      while |buf| < start + n
        invariant NoneEmpty(stream.chunks) && Pending() == old(Pending())
        invariant start <= |buf|
        decreases |stream.chunks|
      {
        var more := Fill();
        if !more {
          assert Pending() == buf;
          return Failure(UnexpectedEof);
        }
      }
      assert Pending()[start..start + n] == buf[start..start + n];
      assert Pending()[start + n..] == buf[start + n..] + Flatten(stream.chunks);
      r := Success(Frame(first, buf[start..start + n]));
      buf := buf[start + n..];
    }
  }

  // --- End to end ---

  predicate Sendable(ok: Bytes -> bool, ps: seq<Packet>) {
    forall i :: 0 <= i < |ps| ==> RoundTrip.PacketOk(ok, ps[i]) && RoundTrip.BodyLength(ps[i]) < Varint.LIMIT
  }

  /** What a sender of these packets puts on the wire. */
  ghost function WireBytes(ok: Bytes -> bool, ps: seq<Packet>): Bytes
    requires Sendable(ok, ps)
  {
    if ps == [] then []
    else
      RoundTrip.OkEncodes(ok, ps[0]);
      OpsBytes(EncodePacket(ps[0]).value) + WireBytes(ok, ps[1..])
  }

  /** The packets a stream of bytes holds, up to the first failure. */
  function Receive(ok: Bytes -> bool, stream: Bytes): (seq<Packet>, IoError)
    decreases |stream|
  {
    match NextFrame(stream)
    case Failure(e) => ([], e)
    case Success((frame, rest)) =>
      match DecodePacket(ok, frame.first, frame.body)
      case Failure(e) => ([], Malformed(e))
      case Success(p) =>
        assert |rest| < |stream|;
        var (ps, e) := Receive(ok, rest);
        ([p] + ps, e)
  }

  lemma FrameOfPacket(ok: Bytes -> bool, p: Packet, rest: Bytes)
    requires RoundTrip.PacketOk(ok, p) && Encodable(p) && EncodePacket(p).Success?
    ensures var r := NextFrame(OpsBytes(EncodePacket(p).value) + rest);
      && r.Success? && r.value.1 == rest
      && DecodePacket(ok, r.value.0.first, r.value.0.body) == Success(p)
  {
    hide RoundTrip.PacketOk, EncodeBody, DecodePacket, FixedHeader, EncodePacket;
    RoundTrip.PacketForm(p);
    RoundTrip.BodyBack(ok, p);
    var body := OpsBytes(EncodeBody(p).value);
    var n := Varint.Encode(|body|).value;
    RoundTrip.HeaderOf(FirstByte(p), body, rest);
    var src := OpsBytes(EncodePacket(p).value) + rest;
    var start := 1 + |n|;
    assert src == [FirstByte(p)] + (n + body) + rest;
    assert src[start..start + |body|] == body;
    assert src[start + |body|..] == rest;
  }

  /** The bytes of a list of packets are received as exactly that list, in order, and then the stream ends. */
  lemma {:induction false} EndToEnd(ok: Bytes -> bool, ps: seq<Packet>)
    requires Sendable(ok, ps)
    ensures Receive(ok, WireBytes(ok, ps)) == (ps, UnexpectedEof)
  {
    hide RoundTrip.PacketOk, RoundTrip.BodyLength, DecodePacket, EncodePacket;
    if ps != [] {
      RoundTrip.OkEncodes(ok, ps[0]);
      EndToEnd(ok, ps[1..]);
      FrameOfPacket(ok, ps[0], WireBytes(ok, ps[1..]));
      assert [ps[0]] + ps[1..] == ps;
    }
  }

  lemma {:induction false} WireSnoc(ok: Bytes -> bool, ps: seq<Packet>, i: nat)
    requires Sendable(ok, ps) && i < |ps|
    ensures Sendable(ok, ps[..i]) && Sendable(ok, ps[..i + 1])
    ensures Encodable(ps[i]) && EncodePacket(ps[i]).Success?
    ensures WireBytes(ok, ps[..i + 1]) == WireBytes(ok, ps[..i]) + OpsBytes(EncodePacket(ps[i]).value)
    decreases i
  {
    hide RoundTrip.PacketOk, RoundTrip.BodyLength, EncodePacket;
    RoundTrip.OkEncodes(ok, ps[i]);
    if i == 0 {
      assert ps[..1][1..] == [] && ps[..0] == [];
    } else {
      WireSnoc(ok, ps[1..], i - 1);
      assert ps[..i + 1][1..] == ps[1..][..i] && ps[..i][1..] == ps[1..][..i - 1];
    }
  }

  /**
   * Writing the packets and flushing puts exactly their bytes on the wire, and succeeds exactly if every write takes
   * something and every flush of the stream succeeds.
   */
  method SendAll(ok: Bytes -> bool, w: Writer, ps: seq<Packet>) returns (r: Result<(), IoError>)
    requires w.Valid() && w.buf.Content() == [] && Sendable(ok, ps)
    modifies w.buf, w.stream
    ensures r.Success? ==> w.stream.accepted == old(w.stream.accepted) + WireBytes(ok, ps)
    ensures r.Success? ==> w.stream.flushed > old(w.stream.flushed)
    ensures r.Success? <==>
      && AllTaken(w.stream.offers, old(w.stream.writes), w.stream.writes)
      && AllFlushed(w.stream.flushes, old(w.stream.flushed), w.stream.flushed)
  {
    hide RoundTrip.PacketOk, RoundTrip.BodyLength, EncodePacket, OpsBytes, Flatten, Encodable;
    var i := 0;
    assert ps[..0] == [];
    while i < |ps|
      invariant 0 <= i <= |ps| && Sendable(ok, ps[..i])
      invariant w.Valid()
      invariant w.Output() == old(w.stream.accepted) + WireBytes(ok, ps[..i])
      invariant w.stream.writes >= old(w.stream.writes) && w.stream.flushed >= old(w.stream.flushed)
      invariant AllTaken(w.stream.offers, old(w.stream.writes), w.stream.writes)
      invariant AllFlushed(w.stream.flushes, old(w.stream.flushed), w.stream.flushed)
    {
      WireSnoc(ok, ps, i);
      ghost var failed, written, drained;
      r, failed, written, drained := w.Write(ps[i], true);
      if r.Failure? {
        return;
      }
      i := i + 1;
    }
    assert ps[..i] == ps;
    ghost var content := w.buf.Content();
    ghost var written, drained;
    r, written, drained := w.Flush();
    assert r.Success? ==> content[..written] == content;
  }

  lemma FrameShrinks(stream: Bytes)
    requires NextFrame(stream).Success?
    ensures |NextFrame(stream).value.1| < |stream|
  {
  }

  lemma ReceiveNext(ok: Bytes -> bool, stream: Bytes)
    ensures match NextFrame(stream)
      case Failure(e) => Receive(ok, stream) == ([], e)
      case Success((frame, rest)) =>
        match DecodePacket(ok, frame.first, frame.body)
        case Failure(e) => Receive(ok, stream) == ([], Malformed(e))
        case Success(p) => |rest| < |stream| && Receive(ok, stream) == ([p] + Receive(ok, rest).0, Receive(ok, rest).1)
  {
    hide DecodePacket, NextFrame;
    if NextFrame(stream).Success? {
      FrameShrinks(stream);
    }
  }

  /** Reading until the stream fails or ends. */
  method ReceiveAll(ok: Bytes -> bool, reader: Reader) returns (ps: seq<Packet>, e: IoError)
    requires NoneEmpty(reader.stream.chunks)
    modifies reader, reader.stream
    ensures (ps, e) == Receive(ok, old(reader.Pending()))
  {
    hide DecodePacket, Receive, NextFrame, Flatten;
    ps := [];
    assert [] + Receive(ok, reader.Pending()).0 == Receive(ok, reader.Pending()).0;
    while true
      invariant NoneEmpty(reader.stream.chunks)
      invariant var (more, last) := Receive(ok, reader.Pending());
        Receive(ok, old(reader.Pending())) == (ps + more, last)
      decreases |reader.Pending()|
    {
      ReceiveNext(ok, reader.Pending());
      var frame := reader.Read();
      if frame.Failure? {
        assert ps + [] == ps;
        return ps, frame.error;
      }
      var src := new Source(frame.value.body);
      var decoded := DecodePacketFrom(ok, frame.value.first, src);
      if decoded.Failure? {
        assert ps + [] == ps;
        return ps, Malformed(decoded.error);
      }
      ghost var more := Receive(ok, reader.Pending()).0;
      assert ps + ([decoded.value] + more) == ps + [decoded.value] + more;
      ps := ps + [decoded.value];
    }
  }

  /**
   * Packets sent through any network are received as they were sent, however reads and writes are cut up; and they are
   * sent exactly if every write that was made took something and every flush that was made succeeded.
   */
  method SendAndReceive(ok: Bytes -> bool, ps: seq<Packet>, offers: nat -> Offer, flushes: nat -> bool, cut: Bytes -> seq<Bytes>)
    returns (sent: bool, received: seq<Packet>, e: IoError, ghost writes: nat, ghost flushed: nat)
    requires Sendable(ok, ps)
    requires forall b :: NoneEmpty(cut(b)) && Flatten(cut(b)) == b
    ensures sent ==> received == ps && e == UnexpectedEof && flushed > 0
    ensures sent <==> AllTaken(offers, 0, writes) && AllFlushed(flushes, 0, flushed)
  {
    var out := new OutStream(offers, flushes);
    var buf := new IovecsAccumulator();
    var w := new Writer(out, buf);
    var r := SendAll(ok, w, ps);
    writes, flushed := out.writes, out.flushed;
    if r.Failure? {
      return false, [], r.error, writes, flushed;
    }
    var chunks := cut(out.accepted);
    var input := new InStream(chunks);
    var reader := new Reader(input);
    assert reader.Pending() == WireBytes(ok, ps);
    EndToEnd(ok, ps);
    received, e := ReceiveAll(ok, reader);
    sent := true;
  }
}
