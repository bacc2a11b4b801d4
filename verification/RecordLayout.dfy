/** The layout of perf_event records, byte by byte, as the header and the records are documented in
    perf_event_open(2) (src/perf/perf_sampler.cpp:107-132, src/perf/sample_collector.cpp:130-141). */
module RecordLayout {
  import opened PerfRecord
  import opened Results
  import opened Words

  /** Little-endian numbers at a position. */
  function Half(b: seq<byte>, at: nat): nat
    requires at + 2 <= |b|
  {
    b[at] as nat + 0x100 * b[at + 1] as nat
  }

  function Word(b: seq<byte>, at: nat): nat
    requires at + 4 <= |b|
  {
    b[at] as nat + 0x100 * b[at + 1] as nat + 0x1_0000 * b[at + 2] as nat + 0x100_0000 * b[at + 3] as nat
  }

  function Long(b: seq<byte>, at: nat): nat
    requires at + 8 <= |b|
  {
    Word(b, at) + 0x1_0000_0000 * Word(b, at + 4)
  }

  lemma FromHalf(b: seq<byte>)
    requires |b| == 2
    ensures FromLE(b) == Half(b, 0)
  {
    assert b[1..][0] == b[1] && b[1..][1..] == [];
  }

  lemma FromWord(b: seq<byte>)
    requires |b| == 4
    ensures FromLE(b) == Word(b, 0)
  {
    var c, d := b[1..], b[2..];
    assert c[1..] == d && c[0] == b[1];
    FromHalf(d);
    assert d[0] == b[2] && d[1] == b[3];
  }

  lemma FromSplit(a: seq<byte>, b: seq<byte>)
    requires |a| == 4
    ensures FromLE(a + b) == FromLE(a) + 0x1_0000_0000 * FromLE(b)
  {
    FromPrefix(a, b);
    WordWidths();
  }

  lemma {:induction false} FromPrefix(a: seq<byte>, b: seq<byte>)
    ensures FromLE(a + b) == FromLE(a) + Pow256(|a|) * FromLE(b)
  {
    if a == [] {
      assert a + b == b;
    } else {
      assert (a + b)[1..] == a[1..] + b;
      FromPrefix(a[1..], b);
      Factored(FromLE(a[1..]), Pow256(|a| - 1), FromLE(b));
    }
  }

  lemma Factored(x: nat, p: nat, y: nat)
    ensures 0x100 * (x + p * y) == 0x100 * x + (0x100 * p) * y
  {
  }

  lemma FromLong(b: seq<byte>)
    requires |b| == 8
    ensures FromLE(b) == Long(b, 0)
  {
    var low, high := b[..4], b[4..];
    assert b == low + high;
    FromSplit(low, high);
    FromWord(low);
    FromWord(high);
  }

  lemma Fields(b: seq<byte>)
    requires |b| >= 8
    ensures SizeField(b) == Half(b, 6) && KindField(b) == Word(b, 0)
  {
    FromHalf(b[6..8]);
    FromWord(b[0..4]);
  }

  lemma LongAt(b: seq<byte>, at: nat)
    requires at + 8 <= |b|
    ensures ReadU64(b, at) == Long(b, at)
  {
    FromLong(b[at..at + 8]);
  }

  lemma WordAt(b: seq<byte>, at: nat)
    requires at + 4 <= |b|
    ensures ReadU32(b, at) == Word(b, at)
  {
    FromWord(b[at..at + 4]);
  }

  /** A record is read if and only if it is as long as its header says and long enough for its type;
      type 9 is a sample of address, process, thread and time, type 2 has its losses behind an
      identifier, and no other type says anything. */
  lemma ParseReads(b: seq<byte>)
    ensures Parse(b).Ok? <==>
      && |b| >= 8 && |b| == Half(b, 6)
      && (Word(b, 0) == 9 ==> |b| >= 32)
      && (Word(b, 0) == 2 ==> |b| >= 24)
    ensures Parse(b).Ok? ==>
      var p := Parse(b).value;
      && (p.sample.Some? <==> Word(b, 0) == 9)
      && (p.sample.Some? ==>
            && p.sample.value.instructionPointer == Long(b, 8)
            && p.sample.value.processId == Word(b, 16)
            && p.sample.value.threadId == Word(b, 20)
            && p.sample.value.time == Long(b, 24))
      && p.lostSamples == if Word(b, 0) == 2 then Long(b, 16) else 0
  {
    if |b| >= 8 {
      Fields(b);
      if |b| == Half(b, 6) && Word(b, 0) == 9 && |b| >= 32 {
        LongAt(b, 8);
        WordAt(b, 16);
        WordAt(b, 20);
        LongAt(b, 24);
      } else if |b| == Half(b, 6) && Word(b, 0) == 2 && |b| >= 24 {
        LongAt(b, 16);
      }
    }
  }

  /** The type bytes of what is encoded. */
  lemma EncodedType(r: Record)
    requires Encodable(r)
    ensures r.Sample? ==> Encode(r)[..4] == [9, 0, 0, 0]
    ensures r.Lost? ==> Encode(r)[..4] == [2, 0, 0, 0]
    ensures r.Other? ==> Encode(r)[..4] != [9, 0, 0, 0] && Encode(r)[..4] != [2, 0, 0, 0]
  {
    EncodeHeader(r);
    var e := Encode(r);
    Fields(e);
    assert e[..4] == [e[0], e[1], e[2], e[3]];
  }

  /** What stops a drain behind whole records: fewer bytes than a header, a size that is none or does not
      fit, or a record too short for its type; each has its own error, and nothing else stops it. */
  lemma FaultBehind(whole: seq<byte>, rest: seq<byte>, ringSize: nat)
    requires WholeRecords(whole, ringSize) && rest != []
    ensures |rest| < 8 ==> Frame(whole + rest, ringSize).error == Some(TruncatedRingHeader)
    ensures |rest| >= 8 ==>
      var size := Half(rest, 6);
      if size < 8 || size > ringSize || size > |rest| then Frame(whole + rest, ringSize).error == Some(InvalidRingSize)
      else if (Word(rest, 0) == 9 && size < 32) || (Word(rest, 0) == 2 && size < 24)
      then Frame(whole + rest, ringSize).error == Some(TruncatedPayload)
      else WholeRecords(whole + rest[..size], ringSize)
  {
    FrameAppend(whole, rest, ringSize);
    if |rest| >= 8 {
      Fields(rest);
      var size := Half(rest, 6);
      if 8 <= size <= ringSize && size <= |rest| {
        var first := rest[..size];
        assert Half(first, 6) == size && Word(first, 0) == Word(rest, 0);
        Fields(first);
        ParseReads(first);
        FrameCons(first, [], ringSize);
        assert first + [] == first;
        FrameAppend(whole, first, ringSize);
      }
    }
  }
}
