/** The shared ring of perf_event_open's mmap layout as a protocol between the kernel, which
    writes bytes and then publishes data_head, and the sampler, which takes records and
    stores data_tail only when a drain is over. Every interleaving of their steps is a run. */
module RingProtocol {
  import opened PerfRecord
  import opened Results
  import opened RingBuffer
  import opened Sequences
  import opened Words

  /** What both sides see. Head and tail run freely and wrap at 2^64. */
  datatype Memory = Memory(data: seq<byte>, head: u64, tail: u64)

  /** All bytes published so far, and how many of them data_tail has given back. */
  datatype History = History(stream: seq<byte>, consumed: nat)

  /** The buffer sizes the sampler maps: whole power-of-two pages. */
  predicate Mapped(m: Memory) {
    0 < |m.data| < TWO64 && DividesCounter(|m.data|)
  }

  function Pending(m: Memory): u64 {
    Sub64(m.head, m.tail)
  }

  ghost predicate Agrees(m: Memory, h: History) {
    && Mapped(m)
    && h.consumed <= |h.stream|
    && Pending(m) == |h.stream| - h.consumed <= |m.data|
    && Chunks(m.data, m.tail, Pending(m)) == h.stream[h.consumed..]
  }

  // ----- reading across a split

  lemma ChunksSplit(data: seq<byte>, position: u64, n: nat, k: nat)
    requires 0 < |data| && DividesCounter(|data|) && k <= n < TWO64
    ensures Chunks(data, position, n) == Chunks(data, position, k) + Chunks(data, Add64(position, k), n - k)
  {
    hide Chunks, Window, Slot;
    ChunksAreWindow(data, position, n);
    ChunksAreWindow(data, position, k);
    ChunksAreWindow(data, Add64(position, k), n - k);
    WindowOfWrapped(data, position, k, n - k);
    WindowSplit(data, position, k, n - k);
  }

  lemma WindowSlice(data: seq<byte>, position: u64, n: nat, a: u64, k: nat)
    requires 0 < |data| && DividesCounter(|data|) && a + k <= n
    ensures Window(data, Add64(position, a), k) == Window(data, position, n)[a..a + k]
  {
    forall i | 0 <= i < k
      ensures Window(data, Add64(position, a), k)[i] == Window(data, position, n)[a..a + k][i]
    {
      SlotOfSum(position, a, i, |data|);
    }
  }

  lemma ChunksSlice(data: seq<byte>, position: u64, n: nat, a: nat, k: nat)
    requires 0 < |data| && DividesCounter(|data|) && a + k <= n < TWO64
    ensures Chunks(data, Add64(position, a), k) == Chunks(data, position, n)[a..a + k]
  {
    ChunksAreWindow(data, position, n);
    ChunksAreWindow(data, Add64(position, a), k);
    WindowSlice(data, position, n, a, k);
  }

  /** Bytes within a buffer's length of a position are not touched by a write beyond them. */
  lemma WriteBeyond(data: seq<byte>, position: u64, n: nat, at: nat, b: byte)
    requires 0 < |data| < TWO64 && DividesCounter(|data|) && n <= at < |data|
    ensures Chunks(data[Slot(Add64(position, at), |data|) := b], position, n) == Chunks(data, position, n)
  {
    hide Chunks, Slot, Add64, DividesCounter;
    var size := |data|;
    var data' := data[Slot(Add64(position, at), size) := b];
    ChunksAreWindow(data, position, n);
    ChunksAreWindow(data', position, n);
    SlotOfSum(position, at, 0, size);
    forall i | 0 <= i < n
      ensures Window(data', position, n)[i] == Window(data, position, n)[i]
    {
      SlotInjective(position + i, position + at, size);
    }
  }

  // ----- the kernel's steps

  /** The kernel stores a byte in free space, `k` past the head it has published. */
  function WriteByte(m: Memory, k: nat, b: byte): Memory
    requires Mapped(m) && Pending(m) + k < |m.data|
  {
    m.(data := m.data[Slot(Add64(m.head, k), |m.data|) := b])
  }

  /** The kernel publishes the next `n` bytes. */
  function Publish(m: Memory, n: nat): Memory
    requires Mapped(m) && Pending(m) + n <= |m.data|
  {
    m.(head := Add64(m.head, n))
  }

  function Published(h: History, m: Memory, n: nat): History
    requires Mapped(m) && n < TWO64
  {
    h.(stream := h.stream + Chunks(m.data, m.head, n))
  }

  /** What a sampler between two of its own steps may rely on. */
  ghost predicate Rely(m: Memory, m': Memory) {
    && |m'.data| == |m.data| && m'.tail == m.tail
    && (Pending(m) > |m.data| ==> m' == m)
    && (Pending(m) <= |m.data| ==>
          Pending(m) <= Pending(m') <= |m.data| &&
          (Mapped(m) ==> Chunks(m'.data, m.tail, Pending(m)) == Chunks(m.data, m.tail, Pending(m))))
  }

  lemma WriteByteIsSafe(m: Memory, h: History, k: nat, b: byte)
    requires Mapped(m) && Pending(m) + k < |m.data|
    ensures Rely(m, WriteByte(m, k, b))
    ensures Agrees(m, h) ==> Agrees(WriteByte(m, k, b), h)
  {
    WriteByteKeepsWindow(m, k, b);
  }

  lemma WriteByteKeepsWindow(m: Memory, k: nat, b: byte)
    requires Mapped(m) && Pending(m) + k < |m.data|
    ensures Chunks(WriteByte(m, k, b).data, m.tail, Pending(m)) == Chunks(m.data, m.tail, Pending(m))
  {
    hide Chunks, Add64, Sub64, Slot;
    PositionOfFree(m.head, m.tail, k);
    WriteBeyond(m.data, m.tail, Pending(m), Pending(m) + k, b);
  }

  lemma PublishPending(m: Memory, n: nat)
    requires Mapped(m) && Pending(m) + n <= |m.data|
    ensures Pending(Publish(m, n)) == Pending(m) + n
    ensures Add64(m.tail, Pending(m)) == m.head
  {
    Distances(m.tail, m.head, m.head);
    Add64Assoc(m.tail, Pending(m), n);
    Distances(m.tail, Pending(m) + n, m.head);
  }

  lemma PublishIsSafe(m: Memory, h: History, n: nat)
    requires Mapped(m) && Pending(m) + n <= |m.data|
    ensures Rely(m, Publish(m, n))
    ensures Agrees(m, h) ==> Agrees(Publish(m, n), Published(h, m, n))
  {
    PublishPending(m, n);
    if Agrees(m, h) {
      ChunksSplit(m.data, m.tail, Pending(m) + n, Pending(m));
      DropOfConcat(h.stream, Chunks(m.data, m.head, n), h.consumed);
    }
  }

  lemma PrefixStable(data: seq<byte>, data': seq<byte>, position: u64, n: nat, k: nat)
    requires 0 < |data| == |data'| && DividesCounter(|data|) && k <= n < TWO64
    requires Chunks(data, position, n) == Chunks(data', position, n)
    ensures Chunks(data, position, k) == Chunks(data', position, k)
  {
    ChunksSplit(data, position, n, k);
    ChunksSplit(data', position, n, k);
    SamePrefix(Chunks(data, position, k), Chunks(data, Add64(position, k), n - k),
               Chunks(data', position, k), Chunks(data', Add64(position, k), n - k));
  }

  lemma RelyTransitive(a: Memory, b: Memory, c: Memory)
    requires Mapped(a) && Rely(a, b) && Rely(b, c)
    ensures Rely(a, c)
  {
    if Pending(a) <= |a.data| {
      PrefixStable(b.data, c.data, a.tail, Pending(b), Pending(a));
    }
  }

  // ----- the sampler's steps

  datatype Taken = Taken(size: u16, record: Parsed)

  /** One turn of drain's loop: the record at `position`, given a head snapshot. */
  function NextRecord(data: seq<byte>, head: u64, position: u64): (r: Result<Taken, RecordError>)
    requires |data| > 0
    ensures r.Ok? ==> HEADER_SIZE <= r.value.size <= |data| && r.value.size <= Sub64(head, position)
  {
    if Sub64(head, position) < HEADER_SIZE then Err(TruncatedRingHeader)
    else
      var size := SizeField(Chunks(data, position, HEADER_SIZE));
      if size < HEADER_SIZE || size > |data| || size > Sub64(head, position) then Err(InvalidRingSize)
      else
        match Parse(Chunks(data, position, size))
        case Err(e) => Err(e)
        case Ok(p) => Ok(Taken(size, p))
  }

  /** The bytes of one head snapshot. */
  function Snapshot(data: seq<byte>, head: u64, position: u64): seq<byte>
    requires |data| > 0
  {
    Chunks(data, position, Sub64(head, position))
  }

  lemma SnapshotSplits(data: seq<byte>, head: u64, position: u64, size: nat)
    requires 0 < |data| && DividesCounter(|data|) && size <= Sub64(head, position)
    ensures Snapshot(data, head, position) == Chunks(data, position, size) + Snapshot(data, head, Add64(position, size))
  {
    hide Chunks, Add64, Sub64;
    DistanceAfter(head, position, size);
    ChunksSplit(data, position, Sub64(head, position), size);
  }

  lemma SizeFieldOfPrefix(a: seq<byte>, b: seq<byte>)
    requires |a| >= HEADER_SIZE
    ensures SizeField(a + b) == SizeField(a)
  {
    assert (a + b)[6..8] == a[6..8];
  }

  /** A turn of the loop is a turn of framing. */
  lemma NextRecordFrames(data: seq<byte>, head: u64, position: u64)
    requires 0 < |data| && DividesCounter(|data|) && position != head
    ensures Frame(Snapshot(data, head, position), |data|) ==
            var next := NextRecord(data, head, position);
            if next.Err? then Framed([], Some(next.error))
            else
              var rest := Frame(Snapshot(data, head, Add64(position, next.value.size)), |data|);
              Framed([next.value.record] + rest.records, rest.error)
  {
    Distances(head, position, head);
    if Sub64(head, position) >= HEADER_SIZE {
      var header := Chunks(data, position, HEADER_SIZE);
      var size := SizeField(header);
      SnapshotSplits(data, head, position, HEADER_SIZE);
      SizeFieldOfPrefix(header, Snapshot(data, head, Add64(position, HEADER_SIZE)));
      if HEADER_SIZE <= size <= |data| && size <= Sub64(head, position) {
        SnapshotSplits(data, head, position, size);
        SizeFieldOfPrefix(Chunks(data, position, size), Snapshot(data, head, Add64(position, size)));
        FrameCons(Chunks(data, position, size), Snapshot(data, head, Add64(position, size)), |data|);
      }
    }
  }

  // ----- the sampler's store of data_tail

  function Release(m: Memory, position: u64): Memory {
    m.(tail := position)
  }

  function Released(h: History, n: nat): History {
    h.(consumed := h.consumed + n)
  }

  /** The ring holds every part of the stream that data_tail has not given back. */
  lemma RingHoldsStream(m: Memory, h: History, a: nat, n: nat)
    requires Agrees(m, h) && a + n <= Pending(m)
    ensures Chunks(m.data, Add64(m.tail, a), n) == h.stream[h.consumed + a..h.consumed + a + n]
  {
    ChunksSlice(m.data, m.tail, Pending(m), a, n);
    SliceOfDrop(h.stream, h.consumed, a, n);
  }

  lemma StepForward(tail: u64, position: u64, head: u64, size: nat)
    requires Sub64(position, tail) <= Sub64(head, tail) && size <= Sub64(head, position)
    ensures Sub64(Add64(position, size), tail) == Sub64(position, tail) + size <= Sub64(head, tail)
  {
  }

  lemma ReleaseDistances(tail: u64, position: u64, head: u64)
    requires Sub64(position, tail) <= Sub64(head, tail)
    ensures Add64(tail, Sub64(position, tail)) == position
    ensures Sub64(head, position) == Sub64(head, tail) - Sub64(position, tail)
  {
  }

  /** Giving back a part of what is pending leaves the rest in the ring. */
  lemma ReleaseAgrees(m: Memory, h: History, position: u64)
    requires Agrees(m, h) && Sub64(position, m.tail) <= Pending(m)
    ensures Agrees(Release(m, position), Released(h, Sub64(position, m.tail)))
  {
    hide Chunks, Add64, Sub64;
    var a := Sub64(position, m.tail);
    ReleaseDistances(m.tail, position, m.head);
    RingHoldsStream(m, h, a, Pending(m) - a);
  }
}
