/** copyRingBytes of src/perf/perf_sampler.cpp: reading a run of bytes out of a circular
    buffer addressed by a free-running 64-bit counter. */
module RingBuffer {
  import opened Results
  import opened Words

  datatype CopyError = EmptyRing

  /** What a run of `n` bytes from the unbounded position `from` on should be. */
  function Window(ring: seq<byte>, from: nat, n: nat): (w: seq<byte>)
    requires |ring| > 0
    ensures |w| == n
    ensures forall i :: 0 <= i < n ==> w[i] == ring[Slot(from + i, |ring|)]
  {
    seq(n, i requires 0 <= i < n => ring[Slot(from + i, |ring|)])
  }

  function ChunkLength(size: nat, offset: u64, n: nat): (count: nat)
    requires size > 0
    ensures count <= n && (n > 0 ==> count > 0)
    ensures Slot(offset, size) + count <= size
  {
    if n < size - Slot(offset, size) then n else size - Slot(offset, size)
  }

  /** The chunks the copy loop appends: the counter wraps between two of them. */
  function Chunks(ring: seq<byte>, offset: u64, n: nat): (bytes: seq<byte>)
    requires |ring| > 0 && n < TWO64
    ensures |bytes| == n
    decreases n
  {
    if n == 0 then []
    else
      var source, count := Slot(offset, |ring|), ChunkLength(|ring|, offset, n);
      ring[source..source + count] + Chunks(ring, Add64(offset, count), n - count)
  }

  /** The first position at or past 2^64 that falls on slot 0. */
  function WrapPoint(size: nat): (w: nat)
    requires size > 0
    ensures TWO64 <= w < TWO64 + size && Slot(w, size) == 0
  {
    var last := Slot(TWO64 - 1, size);
    SlotAdvance(TWO64 - 1, size - last, size);
    TWO64 - 1 + (size - last)
  }

  /** The sizes and ranges for which the wrapping of the counter cannot be seen. */
  predicate WrapUnseen(size: nat, offset: u64, n: nat)
    requires size > 0
  {
    DividesCounter(size) || offset + n <= WrapPoint(size)
  }

  lemma WrapPointUnique(size: nat, x: nat)
    requires size > 0 && TWO64 <= x < TWO64 + size && Slot(x, size) == 0
    ensures x == WrapPoint(size)
  {
    var w := WrapPoint(size);
    if x < w {
      SlotInjective(x, w, size);
    } else if w < x {
      SlotInjective(w, x, size);
    }
  }

  lemma WindowSplit(ring: seq<byte>, from: nat, a: nat, b: nat)
    requires |ring| > 0
    ensures Window(ring, from, a + b) == Window(ring, from, a) + Window(ring, from + a, b)
  {
    var whole, tail := Window(ring, from, a + b), Window(ring, from + a, b);
    forall i | 0 <= i < b
      ensures tail[i] == whole[a + i]
    {
      assert from + a + i == from + (a + i);
    }
  }

  lemma WindowOfWrapped(ring: seq<byte>, offset: u64, count: u64, n: nat)
    requires |ring| > 0 && DividesCounter(|ring|)
    ensures Window(ring, Add64(offset, count), n) == Window(ring, offset + count, n)
  {
    forall i | 0 <= i < n
      ensures Window(ring, Add64(offset, count), n)[i] == Window(ring, offset + count, n)[i]
    {
      SlotOfSum(offset, count, i, |ring|);
    }
  }

  lemma FirstChunk(ring: seq<byte>, offset: u64, n: nat)
    requires |ring| > 0
    ensures var source, count := Slot(offset, |ring|), ChunkLength(|ring|, offset, n);
            ring[source..source + count] == Window(ring, offset, count)
  {
    var source, count := Slot(offset, |ring|), ChunkLength(|ring|, offset, n);
    forall i | 0 <= i < count
      ensures ring[source..source + count][i] == Window(ring, offset, count)[i]
    {
      SlotAdvance(offset, i, |ring|);
    }
  }

  /** A second chunk starts below the counter's limit or on the wrap point. */
  lemma SecondChunkStart(size: nat, offset: u64, n: nat)
    requires size > 0 && ChunkLength(size, offset, n) < n
    ensures var next := offset + ChunkLength(size, offset, n);
            next < TWO64 || next == WrapPoint(size)
  {
    var count := ChunkLength(size, offset, n);
    SlotAdvance(offset, count, size);
    if offset + count >= TWO64 {
      WrapPointUnique(size, offset + count);
    }
  }

  /** Where the wrap cannot be seen, the rest after the first chunk may be read at the
      wrapped counter. */
  lemma RestIsWindow(ring: seq<byte>, offset: u64, n: nat)
    requires |ring| > 0 && n < TWO64 && WrapUnseen(|ring|, offset, n) && ChunkLength(|ring|, offset, n) < n
    ensures var count := ChunkLength(|ring|, offset, n);
            WrapUnseen(|ring|, Add64(offset, count), n - count) &&
            Window(ring, Add64(offset, count), n - count) == Window(ring, offset + count, n - count)
  {
    var count := ChunkLength(|ring|, offset, n);
    SecondChunkStart(|ring|, offset, n);
    if DividesCounter(|ring|) {
      WindowOfWrapped(ring, offset, count, n - count);
    }
  }

  lemma {:induction false} ChunksAreWindow(ring: seq<byte>, offset: u64, n: nat)
    requires |ring| > 0 && n < TWO64 && WrapUnseen(|ring|, offset, n)
    ensures Chunks(ring, offset, n) == Window(ring, offset, n)
    decreases n
  {
    var count := ChunkLength(|ring|, offset, n);
    FirstChunk(ring, offset, n);
    if count < n {
      RestIsWindow(ring, offset, n);
      ChunksAreWindow(ring, Add64(offset, count), n - count);
      WindowSplit(ring, offset, count, n - count);
    }
  }

  /** The first chunk ends at or before any wrap point `w` inside the range, and if it does
      not stay below 2^64 it ends exactly there. */
  lemma ChunkMeetsWrap(size: nat, offset: u64, n: nat, w: nat)
    requires size > 0 && TWO64 <= w < TWO64 + size && Slot(w, size) == 0 && w < offset + n
    ensures var next := offset + ChunkLength(size, offset, n);
            next <= w && ChunkLength(size, offset, n) < n && (next < TWO64 || next == w)
  {
    var end := offset + (size - Slot(offset, size));
    SlotAdvance(offset, size - Slot(offset, size), size);
    if w < end {
      SlotInjective(w, end, size);
    } else if TWO64 <= end < w {
      SlotInjective(end, w, size);
    }
  }

  /** At the wrap point the copy starts a chunk at slot w - 2^64, where slot 0 was due. */
  lemma {:induction false} ChunksMissAtWrap(ring: seq<byte>, offset: u64, n: nat, w: nat)
    requires 0 < |ring| < TWO64 && n < TWO64
    requires TWO64 <= w < TWO64 + |ring| && Slot(w, |ring|) == 0 && w < offset + n
    ensures Chunks(ring, offset, n)[w - offset] == ring[w - TWO64]
    decreases n
  {
    var next, left := MissStep(ring, offset, n, w);
    if next + left > w {
      ChunksMissAtWrap(ring, next, left, w);
    }
  }

  lemma MissStep(ring: seq<byte>, offset: u64, n: nat, w: nat) returns (next: u64, left: nat)
    requires 0 < |ring| < TWO64 && n < TWO64
    requires TWO64 <= w < TWO64 + |ring| && Slot(w, |ring|) == 0 && w < offset + n
    ensures left < n
    ensures if next + left > w then Chunks(ring, offset, n)[w - offset] == Chunks(ring, next, left)[w - next]
            else Chunks(ring, offset, n)[w - offset] == ring[w - TWO64]
  {
    var count := ChunkLength(|ring|, offset, n);
    ChunkMeetsWrap(|ring|, offset, n, w);
    next, left := Add64(offset, count), n - count;
    ChunksSecond(ring, offset, n, next, w - offset);
    if offset + count >= TWO64 {
      ChunksHead(ring, next, left);
    }
  }

  lemma ChunksHead(ring: seq<byte>, offset: u64, n: nat)
    requires offset < |ring| && 0 < n < TWO64
    ensures Chunks(ring, offset, n)[0] == ring[offset]
  {
  }

  lemma ChunksSecond(ring: seq<byte>, offset: u64, n: nat, next: u64, at: nat)
    requires |ring| > 0 && n < TWO64 && ChunkLength(|ring|, offset, n) <= at < n
    requires next == Add64(offset, ChunkLength(|ring|, offset, n))
    ensures var count := ChunkLength(|ring|, offset, n);
            Chunks(ring, offset, n)[at] == Chunks(ring, next, n - count)[at - count]
  {
  }

  /** The wrap point is 2^64 itself only for the sizes that divide the counter range. */
  lemma {:induction false} WrapPointPast(size: nat)
    requires size > 0 && !DividesCounter(size)
    ensures WrapPoint(size) > TWO64
  {
    SlotIsMod(WrapPoint(size), size);
  }

  /** The copy is right for every buffer of a size exactly when the wrap cannot be seen:
      always for sizes that divide 2^64, else up to the wrap point. */
  lemma CopyRightExactly(size: nat, offset: u64, n: nat)
    requires 0 < size < TWO64 && n < TWO64
    ensures (forall ring: seq<byte> :: |ring| == size ==> Chunks(ring, offset, n) == Window(ring, offset, n))
            <==> WrapUnseen(size, offset, n)
  {
    if WrapUnseen(size, offset, n) {
      forall ring: seq<byte> | |ring| == size
        ensures Chunks(ring, offset, n) == Window(ring, offset, n)
      {
        ChunksAreWindow(ring, offset, n);
      }
    } else {
      var ring: seq<byte> := seq(size, i => if i == 0 then 1 else 0);
      ChunksMissAtWrap(ring, offset, n, WrapPoint(size));
      WrapPointPast(size);
      var at := WrapPoint(size) - offset;
      assert offset + at == WrapPoint(size);
      assert Chunks(ring, offset, n)[at] == 0 && Window(ring, offset, n)[at] == ring[0] == 1;
      assert |ring| == size && Chunks(ring, offset, n) != Window(ring, offset, n);
    }
  }

  /** memcpy from inside the ring into the middle of the output. */
  method CopyIn(ring: seq<byte>, source: nat, count: nat, output: array<byte>, at: nat)
    requires source + count <= |ring| && at + count <= output.Length
    modifies output
    ensures output[..at + count] == old(output[..at]) + ring[source..source + count]
    ensures output[at + count..] == old(output[at + count..])
  {
    ghost var before := output[..at];
    forall k | 0 <= k < count {
      output[at + k] := ring[source + k];
    }
    assert output[..at + count] == before + ring[source..source + count];
  }

  lemma ChunksStep(ring: seq<byte>, position: u64, left: nat)
    requires ring != [] && 0 < left < TWO64
    ensures var source, count := Slot(position, |ring|), ChunkLength(|ring|, position, left);
            Chunks(ring, position, left) == ring[source..source + count] + Chunks(ring, Add64(position, count), left - count)
  {
  }

  lemma Regroup<T>(done: seq<T>, all: seq<T>, chunk: seq<T>, rest: seq<T>)
    requires all == chunk + rest
    ensures done + all == done + chunk + rest
  {
  }

  lemma CopyStep(ring: seq<byte>, position: u64, left: nat, done: seq<byte>)
    returns (position': u64, left': nat, done': seq<byte>)
    requires ring != [] && 0 < left < TWO64
    ensures var source, count := Slot(position, |ring|), ChunkLength(|ring|, position, left);
            position' == Add64(position, count) && left' == left - count && done' == done + ring[source..source + count]
    ensures done' + Chunks(ring, position', left') == done + Chunks(ring, position, left)
  {
    var source, count := Slot(position, |ring|), ChunkLength(|ring|, position, left);
    position', left', done' := Add64(position, count), left - count, done + ring[source..source + count];
    ChunksStep(ring, position, left);
    Regroup(done, Chunks(ring, position, left), ring[source..source + count], Chunks(ring, position', left'));
  }

  /** copyRingBytes: fills `output`, whatever its length, from the ring. The index the
      program computes as a remainder is Slot, see Words.SlotIsMod. */
  method CopyRingBytes(ring: seq<byte>, offset: u64, output: array<byte>) returns (result: Result<(), CopyError>)
    requires output.Length < TWO64
    modifies output
    ensures result.Err? <==> ring == [] && output.Length > 0
    ensures result.Err? ==> output[..] == old(output[..])
    ensures result.Ok? && ring != [] ==> output[..] == Chunks(ring, offset, output.Length)
  {
    if ring == [] && output.Length > 0 {
      return Err(EmptyRing);
    }
    if output.Length > 0 {
      FillFromRing(ring, offset, output);
    }
    return Ok(());
  }

  /** The copy loop. */
  method FillFromRing(ring: seq<byte>, offset: u64, output: array<byte>)
    requires ring != [] && output.Length < TWO64
    modifies output
    ensures output[..] == Chunks(ring, offset, output.Length)
  {
    var copied := 0;
    ghost var position, left, done := offset, output.Length, [];
    ghost var whole := Chunks(ring, offset, output.Length);
    assert [] + whole == whole;
    while copied < output.Length
      invariant 0 <= copied <= output.Length && left == output.Length - copied
      invariant position == Add64(offset, copied)
      invariant output[..copied] == done
      invariant done + Chunks(ring, position, left) == whole
    {
      var source := Slot(Add64(offset, copied), |ring|);
      var count := if output.Length - copied < |ring| - source then output.Length - copied else |ring| - source;
      position, left, done := CopyStep(ring, position, left, done);
      Add64Assoc(offset, copied, count);
      CopyIn(ring, source, count, output, copied);
      copied := copied + count;
    }
    assert done + [] == done;
    assert output[..copied] == output[..];
  }
}
