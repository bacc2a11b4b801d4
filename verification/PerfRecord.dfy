/** perf_event records: their byte layout, the parser of src/perf/perf_sampler.cpp and the
    framing of a byte stream into records. */
module PerfRecord {
  import opened Results
  import opened Sequences
  import opened Words

  const HEADER_SIZE: nat := 8
  const RECORD_LOST: u32 := 2
  const RECORD_SAMPLE: u32 := 9

  datatype CpuSample = CpuSample(instructionPointer: u64, processId: u32, threadId: u32, time: u64)

  datatype Parsed = Parsed(sample: Option<CpuSample>, lostSamples: u64)

  datatype RecordError =
    | BufferOverrun
    | TruncatedRingHeader
    | InvalidRingSize
    | ShortRecord
    | SizeMismatch
    | TruncatedPayload

  /** What the kernel writes. `rest` is whatever follows the fields the program reads. */
  datatype Record =
    | Sample(sample: CpuSample, misc: u16, rest: seq<byte>)
    | Lost(id: u64, count: u64, misc: u16, rest: seq<byte>)
    | Other(kind: u32, misc: u16, rest: seq<byte>)

  predicate Encodable(r: Record) {
    match r
    case Sample(_, _, rest) => HEADER_SIZE + 24 + |rest| < TWO16
    case Lost(_, _, _, rest) => HEADER_SIZE + 16 + |rest| < TWO16
    case Other(kind, _, rest) => kind != RECORD_SAMPLE && kind != RECORD_LOST && HEADER_SIZE + |rest| < TWO16
  }

  function Kind(r: Record): u32 {
    match r
    case Sample(_, _, _) => RECORD_SAMPLE
    case Lost(_, _, _, _) => RECORD_LOST
    case Other(kind, _, _) => kind
  }

  function Body(r: Record): seq<byte> {
    match r
    case Sample(s, _, rest) =>
      ToLE(s.instructionPointer, 8) + ToLE(s.processId, 4) + ToLE(s.threadId, 4) + ToLE(s.time, 8) + rest
    case Lost(id, count, _, rest) => ToLE(id, 8) + ToLE(count, 8) + rest
    case Other(_, _, rest) => rest
  }

  function Encode(r: Record): seq<byte> {
    ToLE(Kind(r), 4) + ToLE(r.misc, 2) + ToLE(HEADER_SIZE + |Body(r)|, 2) + Body(r)
  }

  /** What a record tells the sampler. */
  function Meaning(r: Record): Parsed {
    match r
    case Sample(s, _, _) => Parsed(Some(s), 0)
    case Lost(_, count, _, _) => Parsed(None, count)
    case Other(_, _, _) => Parsed(None, 0)
  }

  /** The size field of a header. */
  function SizeField(bytes: seq<byte>): (size: u16)
    requires |bytes| >= HEADER_SIZE
  {
    WordWidths();
    FromLE(bytes[6..8])
  }

  function KindField(bytes: seq<byte>): (kind: u32)
    requires |bytes| >= HEADER_SIZE
  {
    WordWidths();
    FromLE(bytes[0..4])
  }

  function ReadU64(bytes: seq<byte>, offset: nat): (value: u64)
    requires offset + 8 <= |bytes|
  {
    WordWidths();
    FromLE(bytes[offset..offset + 8])
  }

  function ReadU32(bytes: seq<byte>, offset: nat): (value: u32)
    requires offset + 4 <= |bytes|
  {
    WordWidths();
    FromLE(bytes[offset..offset + 4])
  }

  /** parsePerfRecord. The reads of one record stop at the first that does not fit, so a
      record is truncated exactly when its last field does not fit. */
  function Parse(bytes: seq<byte>): Result<Parsed, RecordError> {
    if |bytes| < HEADER_SIZE then Err(ShortRecord)
    else if SizeField(bytes) != |bytes| then Err(SizeMismatch)
    else if KindField(bytes) == RECORD_SAMPLE then
      if HEADER_SIZE + 24 > |bytes| then Err(TruncatedPayload)
      else Ok(Parsed(Some(CpuSample(ReadU64(bytes, 8), ReadU32(bytes, 16), ReadU32(bytes, 20), ReadU64(bytes, 24))), 0))
    else if KindField(bytes) == RECORD_LOST then
      if HEADER_SIZE + 16 > |bytes| then Err(TruncatedPayload)
      else Ok(Parsed(None, ReadU64(bytes, 16)))
    else Ok(Parsed(None, 0))
  }

  lemma EncodeHeader(r: Record)
    requires Encodable(r)
    ensures |Encode(r)| == HEADER_SIZE + |Body(r)| < TWO16
    ensures KindField(Encode(r)) == Kind(r)
    ensures SizeField(Encode(r)) == |Encode(r)|
    ensures Encode(r)[HEADER_SIZE..] == Body(r)
  {
    WordWidths();
    FromLEOfToLE(Kind(r), 4);
    FromLEOfToLE(HEADER_SIZE + |Body(r)|, 2);
    assert Encode(r)[0..4] == ToLE(Kind(r), 4);
    assert Encode(r)[6..8] == ToLE(HEADER_SIZE + |Body(r)|, 2);
  }

  lemma ReadBack64(bytes: seq<byte>, offset: nat, value: u64)
    requires offset + 8 <= |bytes| && bytes[offset..offset + 8] == ToLE(value, 8)
    ensures ReadU64(bytes, offset) == value
  {
    WordWidths();
    FromLEOfToLE(value, 8);
  }

  lemma ReadBack32(bytes: seq<byte>, offset: nat, value: u32)
    requires offset + 4 <= |bytes| && bytes[offset..offset + 4] == ToLE(value, 4)
    ensures ReadU32(bytes, offset) == value
  {
    WordWidths();
    FromLEOfToLE(value, 4);
  }

  lemma BodyFields(header: seq<byte>, a: seq<byte>, b: seq<byte>, c: seq<byte>, d: seq<byte>, rest: seq<byte>)
    requires |header| == HEADER_SIZE && |a| == 8 && |b| == 4 && |c| == 4 && |d| == 8
    ensures var bytes := header + (a + b + c + d + rest);
            bytes[8..16] == a && bytes[16..20] == b && bytes[20..24] == c && bytes[24..32] == d
  {
  }

  lemma SampleFieldsReadBack(header: seq<byte>, s: CpuSample, misc: u16, rest: seq<byte>)
    requires |header| == HEADER_SIZE
    ensures var bytes := header + Body(Sample(s, misc, rest));
            ReadU64(bytes, 8) == s.instructionPointer && ReadU32(bytes, 16) == s.processId &&
            ReadU32(bytes, 20) == s.threadId && ReadU64(bytes, 24) == s.time
  {
    var bytes := header + Body(Sample(s, misc, rest));
    BodyFields(header, ToLE(s.instructionPointer, 8), ToLE(s.processId, 4), ToLE(s.threadId, 4), ToLE(s.time, 8), rest);
    ReadBack64(bytes, 8, s.instructionPointer);
    ReadBack32(bytes, 16, s.processId);
    ReadBack32(bytes, 20, s.threadId);
    ReadBack64(bytes, 24, s.time);
  }

  lemma LostFieldsReadBack(header: seq<byte>, id: u64, count: u64, misc: u16, rest: seq<byte>)
    requires |header| == HEADER_SIZE
    ensures var bytes := header + Body(Lost(id, count, misc, rest));
            ReadU64(bytes, 8) == id && ReadU64(bytes, 16) == count
  {
    var bytes := header + Body(Lost(id, count, misc, rest));
    assert bytes[8..16] == ToLE(id, 8) && bytes[16..24] == ToLE(count, 8);
    ReadBack64(bytes, 8, id);
    ReadBack64(bytes, 16, count);
  }

  /** Decoding undoes encoding. */
  lemma ParseOfEncode(r: Record)
    requires Encodable(r)
    ensures Parse(Encode(r)) == Ok(Meaning(r))
  {
    EncodeHeader(r);
    var header := Encode(r)[..HEADER_SIZE];
    assert Encode(r) == header + Body(r);
    match r
    case Sample(s, misc, rest) => SampleFieldsReadBack(header, s, misc, rest);
    case Lost(id, count, misc, rest) => LostFieldsReadBack(header, id, count, misc, rest);
    case Other(_, _, _) =>
  }

  /** The record whose encoding a parsable byte string is. */
  function Unparse(bytes: seq<byte>): (r: Record)
    requires Parse(bytes).Ok?
  {
    WordWidths();
    var misc: u16 := FromLE(bytes[4..6]);
    if KindField(bytes) == RECORD_SAMPLE then Sample(Parse(bytes).value.sample.value, misc, bytes[32..])
    else if KindField(bytes) == RECORD_LOST then Lost(ReadU64(bytes, 8), ReadU64(bytes, 16), misc, bytes[24..])
    else Other(KindField(bytes), misc, bytes[8..])
  }

  lemma SampleFieldsCover(bytes: seq<byte>)
    requires |bytes| >= 32
    ensures bytes[8..] == bytes[8..16] + bytes[16..20] + bytes[20..24] + bytes[24..32] + bytes[32..]
  {
  }

  lemma BodyOfUnparse(bytes: seq<byte>)
    requires Parse(bytes).Ok?
    ensures Body(Unparse(bytes)) == bytes[HEADER_SIZE..]
  {
    var r := Unparse(bytes);
    if r.Sample? {
      ToLEOfFromLE(bytes[8..16]);
      ToLEOfFromLE(bytes[16..20]);
      ToLEOfFromLE(bytes[20..24]);
      ToLEOfFromLE(bytes[24..32]);
      SampleFieldsCover(bytes);
    } else if r.Lost? {
      ToLEOfFromLE(bytes[8..16]);
      ToLEOfFromLE(bytes[16..24]);
      assert bytes[8..] == bytes[8..16] + bytes[16..24] + bytes[24..];
    }
  }

  /** Encoding undoes decoding: the parser accepts nothing but encodings of records. */
  lemma EncodeOfUnparse(bytes: seq<byte>)
    requires Parse(bytes).Ok?
    ensures Encodable(Unparse(bytes))
    ensures Encode(Unparse(bytes)) == bytes
  {
    BodyOfUnparse(bytes);
    ToLEOfFromLE(bytes[0..4]);
    ToLEOfFromLE(bytes[4..6]);
    ToLEOfFromLE(bytes[6..8]);
    assert Kind(Unparse(bytes)) == KindField(bytes);
    assert bytes == bytes[0..4] + bytes[4..6] + bytes[6..8] + bytes[8..];
  }

  /** The parser accepts a byte string if and only if it is the encoding of a record. */
  lemma ParseAccepts(bytes: seq<byte>)
    ensures Parse(bytes).Ok? <==> exists r :: Encodable(r) && Encode(r) == bytes
  {
    if Parse(bytes).Ok? {
      EncodeOfUnparse(bytes);
    }
    forall r | Encodable(r) && Encode(r) == bytes
      ensures Parse(bytes).Ok?
    {
      ParseOfEncode(r);
    }
  }

  // ----- framing

  /** The records handled before framing ended, and the error that ended it early. */
  datatype Framed = Framed(records: seq<Parsed>, error: Option<RecordError>)

  /** What the loop of SampleCollector::drain makes of the bytes of one head snapshot. */
  function Frame(bytes: seq<byte>, ringSize: nat): Framed
    decreases |bytes|
  {
    if bytes == [] then Framed([], None)
    else if |bytes| < HEADER_SIZE then Framed([], Some(TruncatedRingHeader))
    else
      var size := SizeField(bytes);
      if size < HEADER_SIZE || size > ringSize || size > |bytes| then Framed([], Some(InvalidRingSize))
      else
        match Parse(bytes[..size])
        case Err(e) => Framed([], Some(e))
        case Ok(p) =>
          var tail := Frame(bytes[size..], ringSize);
          Framed([p] + tail.records, tail.error)
  }

  function EncodeAll(rs: seq<Record>): seq<byte> {
    if rs == [] then [] else Encode(rs[0]) + EncodeAll(rs[1..])
  }

  lemma {:induction false} EncodeAllSplit(rs: seq<Record>, k: nat)
    requires k <= |rs|
    ensures EncodeAll(rs) == EncodeAll(rs[..k]) + EncodeAll(rs[k..])
  {
    if k == 0 {
      assert rs[0..] == rs;
    } else {
      EncodeAllSplit(rs[1..], k - 1);
      assert rs[..k][1..] == rs[1..][..k - 1] && rs[1..][k - 1..] == rs[k..];
      Assoc(Encode(rs[0]), EncodeAll(rs[1..][..k - 1]), EncodeAll(rs[k..]));
    }
  }

  function Meanings(rs: seq<Record>): (ms: seq<Parsed>)
    ensures |ms| == |rs|
    ensures forall i :: 0 <= i < |rs| ==> ms[i] == Meaning(rs[i])
  {
    if rs == [] then [] else [Meaning(rs[0])] + Meanings(rs[1..])
  }

  ghost predicate FitRing(rs: seq<Record>, ringSize: nat) {
    forall i :: 0 <= i < |rs| ==> Encodable(rs[i]) && |Encode(rs[i])| <= ringSize
  }

  /** One turn of the framing loop over a record of the size its header gives. */
  lemma FrameCons(first: seq<byte>, rest: seq<byte>, ringSize: nat)
    requires HEADER_SIZE <= |first| <= ringSize && SizeField(first) == |first|
    ensures Frame(first + rest, ringSize) ==
            if Parse(first).Ok?
            then Framed([Parse(first).value] + Frame(rest, ringSize).records, Frame(rest, ringSize).error)
            else Framed([], Some(Parse(first).error))
  {
    var bytes := first + rest;
    assert bytes[6..8] == first[6..8];
    assert bytes[..|first|] == first;
    assert bytes[|first|..] == rest;
  }

  /** Bytes that frame without error begin with a record that parses. */
  lemma FrameSplit(bytes: seq<byte>, ringSize: nat) returns (first: seq<byte>, rest: seq<byte>)
    requires bytes != [] && Frame(bytes, ringSize).error == None
    ensures bytes == first + rest && HEADER_SIZE <= |first| <= ringSize && Parse(first).Ok?
    ensures Frame(bytes, ringSize) == Framed([Parse(first).value] + Frame(rest, ringSize).records, None)
    ensures Frame(rest, ringSize).error == None
  {
    first, rest := bytes[..SizeField(bytes)], bytes[SizeField(bytes)..];
  }

  /** Draining up to one head and then up to a later one is draining up to the later one. */
  lemma {:induction false} FrameAppend(a: seq<byte>, b: seq<byte>, ringSize: nat)
    requires Frame(a, ringSize).error == None
    ensures Frame(a + b, ringSize) ==
            Framed(Frame(a, ringSize).records + Frame(b, ringSize).records, Frame(b, ringSize).error)
    decreases |a|
  {
    if a == [] {
      assert a + b == b;
    } else {
      var first, more := FrameSplit(a, ringSize);
      FrameAppend(more, b, ringSize);
      FrameCons(first, more + b, ringSize);
      Assoc(first, more, b);
      Assoc([Parse(first).value], Frame(more, ringSize).records, Frame(b, ringSize).records);
    }
  }

  /** What is framed of a stream grows by whatever its next bytes frame to. */
  lemma FrameExtends(stream: seq<byte>, n: nat, more: seq<byte>, ringSize: nat)
    requires n + |more| <= |stream| && more == stream[n..n + |more|]
    requires Frame(stream[..n], ringSize).error == None
    ensures Frame(stream[..n + |more|], ringSize) ==
            Framed(Frame(stream[..n], ringSize).records + Frame(more, ringSize).records, Frame(more, ringSize).error)
  {
    hide Frame;
    TakeMore(stream, n, |more|);
    FrameAppend(stream[..n], more, ringSize);
  }

  /** Framing the encodings of records gives back what the records mean. */
  lemma {:induction false} FrameOfEncodeAll(rs: seq<Record>, ringSize: nat)
    requires FitRing(rs, ringSize)
    ensures Frame(EncodeAll(rs), ringSize) == Framed(Meanings(rs), None)
  {
    if rs != [] {
      ParseOfEncode(rs[0]);
      EncodeHeader(rs[0]);
      FrameCons(Encode(rs[0]), EncodeAll(rs[1..]), ringSize);
      FrameOfEncodeAll(rs[1..], ringSize);
    }
  }

  /** The bytes are whole records, none longer than the ring. */
  predicate WholeRecords(bytes: seq<byte>, ringSize: nat) {
    Frame(bytes, ringSize).error == None
  }

  lemma {:induction false} RecordsOf(bytes: seq<byte>, ringSize: nat) returns (rs: seq<Record>)
    requires WholeRecords(bytes, ringSize)
    ensures FitRing(rs, ringSize) && EncodeAll(rs) == bytes
    decreases |bytes|
  {
    if bytes == [] {
      rs := [];
    } else {
      var first, rest := FrameSplit(bytes, ringSize);
      EncodeOfUnparse(first);
      var more := RecordsOf(rest, ringSize);
      rs := [Unparse(first)] + more;
      assert rs[1..] == more;
    }
  }

  /** A byte string drains without error if and only if it is the encodings of records that fit the ring. */
  lemma WholeExactly(bytes: seq<byte>, ringSize: nat)
    ensures WholeRecords(bytes, ringSize) <==> exists rs :: FitRing(rs, ringSize) && EncodeAll(rs) == bytes
  {
    if WholeRecords(bytes, ringSize) {
      var rs := RecordsOf(bytes, ringSize);
    }
    forall rs | FitRing(rs, ringSize) && EncodeAll(rs) == bytes
      ensures WholeRecords(bytes, ringSize)
    {
      FrameOfEncodeAll(rs, ringSize);
    }
  }

  lemma WholeAppend(a: seq<byte>, b: seq<byte>, ringSize: nat)
    requires WholeRecords(a, ringSize) && WholeRecords(b, ringSize)
    ensures WholeRecords(a + b, ringSize)
  {
    FrameAppend(a, b, ringSize);
  }

  /** Some prefix of the stream is followed by this error: what was published is not whole records. */
  ghost predicate Misframes(stream: seq<byte>, ringSize: nat, error: RecordError) {
    exists n: nat :: n <= |stream| && Frame(stream[..n], ringSize).error == Some(error)
  }

  lemma MisframesMore(stream: seq<byte>, stream': seq<byte>, ringSize: nat, error: RecordError)
    requires stream <= stream' && Frame(stream, ringSize).error == Some(error)
    ensures Misframes(stream', ringSize, error)
  {
    assert stream'[..|stream|] == stream;
  }

  /** A prefix that frames without error ends between two records. */
  lemma {:induction false} CleanPrefixIsWhole(rs: seq<Record>, n: nat, ringSize: nat) returns (k: nat)
    requires FitRing(rs, ringSize)
    requires n <= |EncodeAll(rs)|
    requires Frame(EncodeAll(rs)[..n], ringSize).error == None
    ensures k <= |rs| && EncodeAll(rs)[..n] == EncodeAll(rs[..k])
  {
    if n == 0 {
      k := 0;
    } else {
      var e, rest := Encode(rs[0]), EncodeAll(rs[1..]);
      var m := FirstRecordFits(rs, n, ringSize);
      k := CleanPrefixIsWhole(rs[1..], m, ringSize);
      assert rs[..k + 1][1..] == rs[1..][..k];
      k := k + 1;
    }
  }

  lemma FirstRecordFits(rs: seq<Record>, n: nat, ringSize: nat) returns (m: nat)
    requires FitRing(rs, ringSize)
    requires 0 < n <= |EncodeAll(rs)|
    requires Frame(EncodeAll(rs)[..n], ringSize).error == None
    ensures n == |Encode(rs[0])| + m && m <= |EncodeAll(rs[1..])|
    ensures Frame(EncodeAll(rs[1..])[..m], ringSize).error == None
    ensures EncodeAll(rs)[..n] == Encode(rs[0]) + EncodeAll(rs[1..])[..m]
  {
    hide Frame, Parse, Encode, Meaning;
    var e, rest := Encode(rs[0]), EncodeAll(rs[1..]);
    CleanPrefixCoversFirst(rs[0], rest, n, ringSize);
    m := n - |e|;
    TakeOfConcat(e, rest, n);
    ParseOfEncode(rs[0]);
    EncodeHeader(rs[0]);
    FrameCons(e, rest[..m], ringSize);
  }

  lemma CleanPrefixCoversFirst(r: Record, rest: seq<byte>, n: nat, ringSize: nat)
    requires Encodable(r) && 0 < n <= |Encode(r)| + |rest|
    requires Frame((Encode(r) + rest)[..n], ringSize).error == None
    ensures |Encode(r)| <= n
  {
    var e, a := Encode(r), (Encode(r) + rest)[..n];
    EncodeHeader(r);
    assert n >= HEADER_SIZE;
    assert a[6] == e[6] && a[7] == e[7];
    assert a[6..8] == e[6..8];
  }

  /** In draining, the two size errors of the parser cannot happen: the framing loop has
      already compared the same header with the bytes it hands over. */
  lemma {:induction false} FrameNeverMissizes(bytes: seq<byte>, ringSize: nat)
    ensures Frame(bytes, ringSize).error !in {Some(ShortRecord), Some(SizeMismatch), Some(BufferOverrun)}
    decreases |bytes|
  {
    if |bytes| >= HEADER_SIZE {
      var size := SizeField(bytes);
      if HEADER_SIZE <= size <= ringSize && size <= |bytes| {
        assert bytes[..size][6..8] == bytes[6..8];
        FrameNeverMissizes(bytes[size..], ringSize);
      }
    }
  }
}
