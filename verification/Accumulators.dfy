/**
 * The destinations of an encoder: the scatter/gather buffer, the single buffer, and the counter that sizes them.
 * `src/buffer_pool/accumulators/iovecs.rs`, `single.rs`, `src/mqtt_proto/byte_counter.rs`.
 */
module Accumulators {
  import opened Bytes
  import opened Wire

  ghost predicate NoneEmpty(chunks: seq<Bytes>) {
    forall i :: 0 <= i < |chunks| ==> chunks[i] != []
  }

  /** The bytes that an encoder copies, as opposed to shares. */
  function PutLength(ops: seq<Op>): nat {
    if ops == [] then 0 else (if ops[0].Put? then |ops[0].bytes| else 0) + PutLength(ops[1..])
  }

  lemma OpsSplit(ops: seq<Op>, i: nat)
    requires i < |ops|
    ensures OpsBytes(ops[..i + 1]) == OpsBytes(ops[..i]) + ops[i].bytes
    ensures PutLength(ops[i..]) == (if ops[i].Put? then |ops[i].bytes| else 0) + PutLength(ops[i + 1..])
  {
    assert ops[..i + 1] == ops[..i] + [ops[i]];
    OpsConcat(ops[..i], [ops[i]]);
    assert [ops[i]][1..] == [];
    assert OpsBytes([ops[i]]) == ops[i].bytes + [];
    assert ops[i..][1..] == ops[i + 1..];
  }

  lemma NoOps(ops: seq<Op>)
    ensures OpsBytes(ops[..0]) == [] && ops[0..] == ops && ops[..|ops|] == ops
  {
  }

  lemma {:induction false} FlattenEmpty(chunks: seq<Bytes>)
    requires NoneEmpty(chunks)
    ensures Flatten(chunks) == [] <==> chunks == []
    ensures |chunks| <= |Flatten(chunks)|
  {
    if chunks != [] {
      FlattenEmpty(chunks[1..]);
    }
  }

  /**
   * A queue of buffers that are written out together. Small writes collect in `filled`, an owned buffer with
   * room for `unfilled` more bytes, until they are committed to the queue.
   */
  class IovecsAccumulator {
    var filled: Bytes
    var unfilled: nat
    var chunks: seq<Bytes>
    var totalSize: nat

    ghost predicate Valid()
      reads this
    {
      totalSize == |Flatten(chunks)| && NoneEmpty(chunks)
    }

    /** Everything put so far and not yet drained. */
    ghost function Content(): Bytes
      reads this
    {
      Flatten(chunks) + filled
    }

    constructor ()
      ensures Valid() && Content() == [] && filled == []
    {
      filled, unfilled, chunks, totalSize := [], 0, [], 0;
    }

    method CanAcceptMore() returns (yes: bool)
      ensures yes == (|chunks| < 128 - 10)
    {
      yes := |chunks| < 128 - 10;
    }

    method Reserve(additional: nat)
      modifies this`unfilled
      ensures unfilled >= additional
    {
      if unfilled < additional {
        unfilled := additional;
      }
    }

    /** Copies into the owned buffer if there is room. */
    method TryPutSlice(src: Bytes) returns (done: bool)
      requires Valid()
      modifies this`filled, this`unfilled
      ensures Valid()
      ensures done == (old(unfilled) >= |src|)
      ensures done ==> filled == old(filled) + src && unfilled == old(unfilled) - |src|
      ensures !done ==> filled == old(filled) && unfilled == old(unfilled)
    {
      done := unfilled >= |src|;
      if done {
        filled := filled + src;
        unfilled := unfilled - |src|;
      }
    }

    /** Moves the uncommitted bytes to the queue; the room behind them stays usable. */
    method PutDone()
      requires Valid()
      modifies this`filled, this`chunks, this`totalSize
      ensures Valid() && filled == []
      ensures Flatten(chunks) == old(Content())
    {
      if filled != [] {
        FlattenSnoc(chunks, filled);
        totalSize := totalSize + |filled|;
        chunks := chunks + [filled];
        filled := [];
      }
    }

    /** Queues a buffer without copying it. An empty buffer is dropped, and then nothing is committed either. */
    method PutShared(src: Bytes)
      requires Valid()
      modifies this`filled, this`chunks, this`totalSize
      ensures Valid()
      ensures Content() == old(Content()) + src
      ensures src != [] ==> filled == []
    {
      if src == [] {
        return;
      }
      PutDone();
      FlattenSnoc(chunks, src);
      totalSize := totalSize + |src|;
      chunks := chunks + [src];
    }

    /** The first buffers of the queue, at most `max` of them. */
    method ToIovecs(max: nat) returns (iovecs: seq<Bytes>, totalLen: nat)
      requires Valid() && filled == []
      ensures iovecs == chunks[..if |chunks| < max then |chunks| else max]
      ensures totalLen == |Flatten(iovecs)| && Flatten(iovecs) <= Flatten(chunks)
    {
      iovecs, totalLen := [], 0;
      while |iovecs| < max && |iovecs| < |chunks|
        invariant |iovecs| <= max && |iovecs| <= |chunks|
        invariant iovecs == chunks[..|iovecs|] && totalLen == |Flatten(iovecs)|
      {
        var chunk := chunks[|iovecs|];
        FlattenSnoc(iovecs, chunk);
        iovecs := iovecs + [chunk];
        totalLen := totalLen + |chunk|;
      }
      FlattenConcat(iovecs, chunks[|iovecs|..]);
      assert chunks == iovecs + chunks[|iovecs|..];
    }

    /** Removes the first `n` bytes. Clearing everything is the fast path; a partial write takes the slow one. */
    method Drain(n: nat)
      requires Valid() && n <= |Flatten(chunks)|
      modifies this`chunks, this`totalSize
      ensures Valid() && Flatten(chunks) == old(Flatten(chunks))[n..]
    {
      if totalSize == n {
        totalSize := 0;
        chunks := [];
        return;
      }
      DrainSlow(n);
    }

    method DrainSlow(n: nat)
      requires Valid() && n <= |Flatten(chunks)|
      modifies this`chunks, this`totalSize
      ensures Valid() && Flatten(chunks) == old(Flatten(chunks))[n..]
    {
      var left: nat := n;
      while chunks != []
        invariant Valid() && left <= |Flatten(chunks)|
        invariant Flatten(chunks)[left..] == old(Flatten(chunks))[n..]
        decreases |chunks|
      {
        var chunk := chunks[0];
        ghost var rest := Flatten(chunks[1..]);
        chunks := chunks[1..];
        totalSize := totalSize - |chunk|;
        if left >= |chunk| {
          assert (chunk + rest)[left..] == rest[left - |chunk|..];
          left := left - |chunk|;
        } else {
          var tail := chunk[left..];
          assert (chunk + rest)[left..] == tail + rest;
          left := 0;
          totalSize := totalSize + |tail|;
          chunks := [tail] + chunks;
          assert Flatten([tail] + chunks[1..]) == tail + Flatten(chunks[1..]);
          break;
        }
      }
      assert left == 0;
    }

    /** One operation of an encoder. */
    method ApplyOne(op: Op) returns (done: bool)
      requires Valid()
      modifies this
      ensures Valid()
      ensures done == (op.Put? ==> old(unfilled) >= |op.bytes|)
      ensures done ==> Content() == old(Content()) + op.bytes && unfilled == old(unfilled) - if op.Put? then |op.bytes| else 0
    {
      done := true;
      match op {
        case Put(b) => done := TryPutSlice(b);
        case Share(b) => PutShared(b);
      }
    }

    /** What an encoder does to this accumulator, operation by operation. */
    method Apply(ops: seq<Op>) returns (done: bool)
      requires Valid()
      modifies this
      ensures Valid()
      ensures old(unfilled) >= PutLength(ops) ==> done
      ensures done ==> Content() == old(Content()) + OpsBytes(ops)
    {
      hide OpsBytes, PutLength, Flatten;
      var i := 0;
      NoOps(ops);
      while i < |ops|
        invariant 0 <= i <= |ops|
        invariant Valid()
        invariant Content() == old(Content()) + OpsBytes(ops[..i])
        invariant old(unfilled) >= PutLength(ops) ==> unfilled >= PutLength(ops[i..])
      {
        OpsSplit(ops, i);
        var room := ApplyOne(ops[i]);
        if !room {
          return false;
        }
        i := i + 1;
      }
      assert ops[..i] == ops;
      return true;
    }
  }

  /** One growing buffer: the simple form that the queue of buffers must agree with. */
  class SingleAccumulator {
    var bytes: Bytes

    constructor ()
      ensures bytes == []
    {
      bytes := [];
    }

    method Apply(ops: seq<Op>)
      modifies this
      ensures bytes == old(bytes) + OpsBytes(ops)
    {
      var i := 0;
      assert ops[..0] == [];
      while i < |ops|
        invariant 0 <= i <= |ops|
        invariant bytes == old(bytes) + OpsBytes(ops[..i])
      {
        OpsSplit(ops, i);
        bytes := bytes + ops[i].bytes;
        i := i + 1;
      }
      assert ops[..i] == ops;
    }

    method Drain(n: nat)
      requires n <= |bytes|
      modifies this
      ensures bytes == old(bytes)[n..]
    {
      bytes := bytes[n..];
    }
  }

  /** `ByteCounter`: with shared bytes for lengths on the wire, without them for room to reserve. */
  method CountBytes(ops: seq<Op>, countShared: bool) returns (count: nat)
    ensures count == if countShared then |OpsBytes(ops)| else PutLength(ops)
  {
    var i := 0;
    count := 0;
    assert ops[0..] == ops && ops[..0] == [];
    while i < |ops|
      invariant 0 <= i <= |ops|
      invariant countShared ==> count == |OpsBytes(ops[..i])|
      invariant !countShared ==> count + PutLength(ops[i..]) == PutLength(ops)
    {
      OpsSplit(ops, i);
      if ops[i].Put? || countShared {
        count := count + |ops[i].bytes|;
      }
      i := i + 1;
    }
    assert ops[..i] == ops;
  }

  /** Both accumulators, fed by the same encoder and drained alike, hold the same bytes. */
  method SameBytes(queue: IovecsAccumulator, single: SingleAccumulator, ops: seq<Op>, n: nat)
    requires queue.Valid() && queue.filled == [] && Flatten(queue.chunks) == single.bytes
    requires n <= |single.bytes| + |OpsBytes(ops)|
    modifies queue, single
    ensures queue.Valid() && queue.filled == []
    ensures Flatten(queue.chunks) == single.bytes == (old(single.bytes) + OpsBytes(ops))[n..]
  {
    var needed := CountBytes(ops, false);
    queue.Reserve(needed);
    var done := queue.Apply(ops);
    queue.PutDone();
    single.Apply(ops);
    queue.Drain(n);
    single.Drain(n);
  }
}
