/** What the collector is to report: the samples and losses of the records taken from its
    rings, and the relations that hold between two moments of a collector's life. */
module Delivery {
  import opened PerfRecord
  import opened Results
  import opened RingBuffer
  import opened RingProtocol
  import opened Sequences
  import opened Words

  /** The samples of the target among the records, in record order. */
  function TargetSamples(ps: seq<Parsed>, target: u32): seq<CpuSample> {
    if ps == [] then []
    else
      (match ps[0].sample
       case Some(sample) => if sample.processId == target then [sample] else []
       case None => [])
      + TargetSamples(ps[1..], target)
  }

  function SumLost(ps: seq<Parsed>): nat {
    if ps == [] then 0 else ps[0].lostSamples + SumLost(ps[1..])
  }

  /** The 64-bit running count after adding the losses of some records. */
  function AddLost(lost: u64, ps: seq<Parsed>): u64
    decreases |ps|
  {
    if ps == [] then lost else AddLost(Add64(lost, ps[0].lostSamples), ps[1..])
  }

  lemma {:induction false} AddLostWraps(n: nat, ps: seq<Parsed>)
    ensures AddLost(Wrap(n), ps) == Wrap(n + SumLost(ps))
    decreases |ps|
  {
    if ps != [] {
      WrapAdd(n, ps[0].lostSamples);
      AddLostWraps(n + ps[0].lostSamples, ps[1..]);
    }
  }

  lemma {:induction false} AddLostSnoc(lost: u64, ps: seq<Parsed>, p: Parsed)
    ensures AddLost(lost, ps + [p]) == Add64(AddLost(lost, ps), p.lostSamples)
    decreases |ps|
  {
    if ps == [] {
      assert ps + [p] == [p];
    } else {
      assert (ps + [p])[1..] == ps[1..] + [p];
      AddLostSnoc(Add64(lost, ps[0].lostSamples), ps[1..], p);
    }
  }

  lemma {:induction false} TargetSamplesAppend(a: seq<Parsed>, b: seq<Parsed>, target: u32)
    ensures TargetSamples(a + b, target) == TargetSamples(a, target) + TargetSamples(b, target)
  {
    if a == [] {
      assert a + b == b;
    } else {
      assert (a + b)[1..] == a[1..] + b;
      TargetSamplesAppend(a[1..], b, target);
    }
  }

  lemma {:induction false} SumLostAppend(a: seq<Parsed>, b: seq<Parsed>)
    ensures SumLost(a + b) == SumLost(a) + SumLost(b)
  {
    if a == [] {
      assert a + b == b;
    } else {
      assert (a + b)[1..] == a[1..] + b;
      SumLostAppend(a[1..], b);
    }
  }

  /** All target samples of all rings, and all losses they reported. */
  ghost function AllSamples(decoded: seq<seq<Parsed>>, target: u32): multiset<CpuSample> {
    if decoded == [] then multiset{}
    else multiset(TargetSamples(decoded[0], target)) + AllSamples(decoded[1..], target)
  }

  ghost function AllLost(decoded: seq<seq<Parsed>>): nat {
    if decoded == [] then 0 else SumLost(decoded[0]) + AllLost(decoded[1..])
  }

  // ----- the same, counted on the kernel's records

  /** How often a sample occurs among one ring's records, and among all. */
  function OccurrencesIn(rs: seq<Record>, s: CpuSample): nat {
    if rs == [] then 0 else (if rs[0].Sample? && rs[0].sample == s then 1 else 0) + OccurrencesIn(rs[1..], s)
  }

  function Occurrences(rings: seq<seq<Record>>, s: CpuSample): nat {
    if rings == [] then 0 else OccurrencesIn(rings[0], s) + Occurrences(rings[1..], s)
  }

  /** How many records were lost according to one ring's records, and to all. */
  function LossesIn(rs: seq<Record>): nat {
    if rs == [] then 0 else (if rs[0].Lost? then rs[0].count else 0) + LossesIn(rs[1..])
  }

  function Losses(rings: seq<seq<Record>>): nat {
    if rings == [] then 0 else LossesIn(rings[0]) + Losses(rings[1..])
  }

  lemma OneTargetSample(r: Record, rest: seq<Parsed>, target: u32, s: CpuSample)
    ensures multiset(TargetSamples([Meaning(r)] + rest, target))[s]
         == (if s.processId == target && r.Sample? && r.sample == s then 1 else 0) + multiset(TargetSamples(rest, target))[s]
  {
    assert ([Meaning(r)] + rest)[1..] == rest;
  }

  lemma {:induction false} TargetSamplesAre(rs: seq<Record>, target: u32, s: CpuSample)
    ensures multiset(TargetSamples(Meanings(rs), target))[s] == if s.processId == target then OccurrencesIn(rs, s) else 0
  {
    if rs != [] {
      hide TargetSamples, Meaning;
      OneTargetSample(rs[0], Meanings(rs[1..]), target, s);
      TargetSamplesAre(rs[1..], target, s);
    }
  }

  lemma {:induction false} SumLostIs(rs: seq<Record>)
    ensures SumLost(Meanings(rs)) == LossesIn(rs)
  {
    if rs != [] {
      assert Meanings(rs)[1..] == Meanings(rs[1..]);
      SumLostIs(rs[1..]);
    }
  }

  lemma {:induction false} AllSamplesAre(rings: seq<seq<Record>>, decoded: seq<seq<Parsed>>, target: u32, s: CpuSample)
    requires |decoded| == |rings| && forall i :: 0 <= i < |rings| ==> decoded[i] == Meanings(rings[i])
    ensures AllSamples(decoded, target)[s] == if s.processId == target then Occurrences(rings, s) else 0
    decreases |rings|
  {
    if rings != [] {
      hide TargetSamples, Meanings;
      TargetSamplesAre(rings[0], target, s);
      AllSamplesAre(rings[1..], decoded[1..], target, s);
    }
  }

  lemma {:induction false} AllLostIs(rings: seq<seq<Record>>, decoded: seq<seq<Parsed>>)
    requires |decoded| == |rings| && forall i :: 0 <= i < |rings| ==> decoded[i] == Meanings(rings[i])
    ensures AllLost(decoded) == Losses(rings)
    decreases |rings|
  {
    if rings != [] {
      hide SumLost, Meanings;
      SumLostIs(rings[0]);
      AllLostIs(rings[1..], decoded[1..]);
    }
  }

  lemma {:induction false} AllAfterTaking(decoded: seq<seq<Parsed>>, i: nat, more: seq<Parsed>, target: u32)
    requires i < |decoded|
    ensures AllSamples(decoded[i := decoded[i] + more], target)
            == AllSamples(decoded, target) + multiset(TargetSamples(more, target))
    ensures AllLost(decoded[i := decoded[i] + more]) == AllLost(decoded) + SumLost(more)
  {
    var decoded' := decoded[i := decoded[i] + more];
    if i == 0 {
      TargetSamplesAppend(decoded[0], more, target);
      SumLostAppend(decoded[0], more);
      assert decoded'[1..] == decoded[1..];
    } else {
      assert decoded'[1..] == decoded[1..][i - 1 := decoded[1..][i - 1] + more];
      AllAfterTaking(decoded[1..], i - 1, more, target);
    }
  }

  /** What a drain makes of the memory its head snapshot finds. */
  function DrainOutcome(seen: Memory): Framed
    requires |seen.data| > 0
  {
    if Pending(seen) > |seen.data| then Framed([], Some(BufferOverrun))
    else Frame(Snapshot(seen.data, seen.head, seen.tail), |seen.data|)
  }

  /** A ring whose consumed stream is exactly the records decoded from it. */
  ghost predicate RingOk(m: Memory, h: History, decoded: seq<Parsed>) {
    Agrees(m, h) && Frame(h.stream[..h.consumed], |m.data|) == Framed(decoded, None)
  }

  /** The kernel has run: no tail moved, nothing pending was disturbed, streams only grew. */
  ghost predicate KernelRan(m: Memory, h: History, m': Memory, h': History) {
    && Rely(m, m')
    && h'.consumed == h.consumed && h.stream <= h'.stream
    && (Agrees(m, h) ==> Agrees(m', h'))
  }

  lemma KernelRanTransitive(a: Memory, ha: History, b: Memory, hb: History, c: Memory, hc: History)
    requires Mapped(a) && KernelRan(a, ha, b, hb) && KernelRan(b, hb, c, hc)
    ensures KernelRan(a, ha, c, hc)
  {
    hide Agrees, Rely;
    RelyTransitive(a, b, c);
  }

  /** The history of a ring nothing has been taken from yet. */
  ghost function Waiting(m: Memory): History
    requires Mapped(m)
  {
    History(Chunks(m.data, m.tail, Pending(m)), 0)
  }

  /** What the ring holds is whole records. */
  ghost predicate HoldsWhole(m: Memory)
    requires Mapped(m)
  {
    WholeRecords(Waiting(m).stream, |m.data|)
  }

  ghost predicate KernelsRan(ms: seq<Memory>, hs: seq<History>, ms': seq<Memory>, hs': seq<History>) {
    && |ms'| == |ms| == |hs| == |hs'|
    && forall i :: 0 <= i < |ms| ==> KernelRan(ms[i], hs[i], ms'[i], hs'[i])
  }

  lemma KernelsRanFacts(ms: seq<Memory>, hs: seq<History>, ms': seq<Memory>, hs': seq<History>)
    requires KernelsRan(ms, hs, ms', hs')
    ensures forall i :: 0 <= i < |ms| ==>
              Rely(ms[i], ms'[i]) && ms'[i].tail == ms[i].tail && |ms'[i].data| == |ms[i].data| &&
              hs'[i].consumed == hs[i].consumed && |hs[i].stream| <= |hs'[i].stream|
  {
  }

  lemma KernelsRanReflexive(ms: seq<Memory>, hs: seq<History>)
    requires |ms| == |hs|
    ensures KernelsRan(ms, hs, ms, hs)
  {
  }

  lemma PublishRan(m: Memory, h: History, n: nat)
    requires Mapped(m) && Pending(m) + n <= |m.data|
    ensures KernelRan(m, h, Publish(m, n), Published(h, m, n)) && Mapped(Publish(m, n))
  {
    hide Agrees, Rely, Chunks;
    PublishIsSafe(m, h, n);
  }

  lemma WriteByteRan(m: Memory, h: History, k: nat, b: byte)
    requires Mapped(m) && Pending(m) + k < |m.data|
    ensures KernelRan(m, h, WriteByte(m, k, b), h) && Mapped(WriteByte(m, k, b))
  {
    hide Agrees, Rely, Chunks;
    WriteByteIsSafe(m, h, k, b);
  }

  lemma PublishKeepsWhole(m: Memory, h: History, n: nat)
    requires Mapped(m) && Pending(m) + n <= |m.data|
    requires WholeRecords(h.stream, |m.data|) && WholeRecords(Chunks(m.data, m.head, n), |m.data|)
    ensures WholeRecords(Published(h, m, n).stream, |Publish(m, n).data|)
  {
    hide Chunks, WholeRecords;
    WholeAppend(h.stream, Chunks(m.data, m.head, n), |m.data|);
  }

  /** One ring's kernel ran and the others' did not. */
  lemma OneKernelRan(ms: seq<Memory>, hs: seq<History>, i: nat, m: Memory, h: History)
    requires |ms| == |hs| && i < |ms| && KernelRan(ms[i], hs[i], m, h)
    ensures KernelsRan(ms, hs, ms[i := m], hs[i := h])
  {
    hide Agrees;
  }

  lemma KernelsRanTransitive(a: seq<Memory>, ha: seq<History>, b: seq<Memory>, hb: seq<History>,
                             c: seq<Memory>, hc: seq<History>)
    requires forall i :: 0 <= i < |a| ==> Mapped(a[i])
    requires KernelsRan(a, ha, b, hb) && KernelsRan(b, hb, c, hc)
    ensures KernelsRan(a, ha, c, hc)
  {
    hide KernelRan;
    forall i | 0 <= i < |a|
      ensures KernelRan(a[i], ha[i], c[i], hc[i])
    {
      KernelRanTransitive(a[i], ha[i], b[i], hb[i], c[i], hc[i]);
    }
  }

  lemma KernelsKeepRingsOk(ms: seq<Memory>, hs: seq<History>, ms': seq<Memory>, hs': seq<History>,
                           decoded: seq<seq<Parsed>>)
    requires KernelsRan(ms, hs, ms', hs') && |decoded| == |ms|
    requires forall i :: 0 <= i < |ms| ==> RingOk(ms[i], hs[i], decoded[i])
    ensures forall i :: 0 <= i < |ms| ==> RingOk(ms'[i], hs'[i], decoded[i])
  {
    hide KernelRan, RingOk;
    forall i | 0 <= i < |ms|
      ensures RingOk(ms'[i], hs'[i], decoded[i])
    {
      KernelKeepsRingOk(ms[i], hs[i], ms'[i], hs'[i], decoded[i]);
    }
  }

  lemma {:induction false} NothingDecoded(decoded: seq<seq<Parsed>>, target: u32)
    requires forall i :: 0 <= i < |decoded| ==> decoded[i] == []
    ensures AllSamples(decoded, target) == multiset{} && AllLost(decoded) == 0
  {
    if decoded != [] {
      NothingDecoded(decoded[1..], target);
    }
  }

  lemma KernelKeepsRingOk(m: Memory, h: History, m': Memory, h': History, decoded: seq<Parsed>)
    requires RingOk(m, h, decoded) && KernelRan(m, h, m', h')
    ensures RingOk(m', h', decoded)
  {
    assert h'.stream[..h.consumed] == h.stream[..h.consumed];
  }

  /** A record read while the kernel runs is the record the snapshot saw. */
  lemma ReadStable(seen: Memory, now: Memory, position: u64)
    requires Mapped(seen) && Rely(seen, now) && Pending(seen) <= |seen.data|
    requires Sub64(position, seen.tail) <= Pending(seen)
    ensures NextRecord(now.data, seen.head, position) == NextRecord(seen.data, seen.head, position)
  {
    hide Chunks;
    var a, left := Sub64(position, seen.tail), Sub64(seen.head, position);
    ReleaseDistances(seen.tail, position, seen.head);
    forall n: nat | n <= left
      ensures Chunks(now.data, position, n) == Chunks(seen.data, position, n)
    {
      ChunksSlice(now.data, seen.tail, Pending(seen), a, n);
      ChunksSlice(seen.data, seen.tail, Pending(seen), a, n);
    }
  }

  /** A drain without error takes the ring from what was decoded to what its snapshot covered. */
  lemma DrainedRingOk(m: Memory, h: History, decoded: seq<Parsed>, seen: Memory, hs: History, now: Memory, hn: History)
    requires RingOk(m, h, decoded) && KernelRan(m, h, seen, hs) && KernelRan(seen, hs, now, hn)
    requires DrainOutcome(seen).error == None
    ensures Pending(seen) == |hs.stream| - h.consumed
    ensures RingOk(Release(now, seen.head), Released(hn, Pending(seen)), decoded + DrainOutcome(seen).records)
  {
    hide Frame, Chunks;
    KernelKeepsRingOk(m, h, seen, hs, decoded);
    KernelKeepsRingOk(seen, hs, now, hn, decoded);
    var more := Snapshot(seen.data, seen.head, seen.tail);
    assert more == hs.stream[hs.consumed..];
    assert hn.stream[hs.consumed..hs.consumed + |more|] == more;
    FrameExtends(hn.stream, hn.consumed, more, |seen.data|);
    ReleaseAgrees(now, hn, seen.head);
  }

  /** A drain ends with the error of the published stream, as of its snapshot. */
  lemma DrainErrorIs(m: Memory, h: History, decoded: seq<Parsed>, seen: Memory, hs: History)
    requires RingOk(m, h, decoded) && KernelRan(m, h, seen, hs)
    ensures Mapped(seen) && Frame(hs.stream, |seen.data|).error == DrainOutcome(seen).error
  {
    hide Frame, Chunks;
    KernelKeepsRingOk(m, h, seen, hs, decoded);
    var more := Snapshot(seen.data, seen.head, seen.tail);
    assert more == hs.stream[hs.consumed..] == hs.stream[hs.consumed..hs.consumed + |more|];
    FrameExtends(hs.stream, hs.consumed, more, |seen.data|);
    assert hs.stream[..hs.consumed + |more|] == hs.stream;
  }

  /** The cause of a drain's error is what the kernel has published. */
  lemma DrainErrorCaused(ms: seq<Memory>, hs: seq<History>, seen: seq<Memory>, seenHs: seq<History>,
                         now: seq<Memory>, nowHs: seq<History>, decoded: seq<seq<Parsed>>, i: nat,
                         target: u32, samples: seq<CpuSample>, lost: u64)
    requires Counted(ms, hs, decoded, target, samples, lost) && i < |ms|
    requires KernelsRan(ms, hs, seen, seenHs) && KernelsRan(seen, seenHs, now, nowHs)
    ensures Mapped(seen[i]) && (WholeRecords(seenHs[i].stream, |seen[i].data|) <==> DrainOutcome(seen[i]).error == None)
    ensures DrainOutcome(seen[i]).error.Some? ==>
              Misframes(nowHs[i].stream, |now[i].data|, DrainOutcome(seen[i]).error.value)
  {
    hide RingOk, DrainOutcome, Frame, Misframes;
    DrainErrorIs(ms[i], hs[i], decoded[i], seen[i], seenHs[i]);
    if DrainOutcome(seen[i]).error.Some? {
      MisframesMore(seenHs[i].stream, nowHs[i].stream, |seen[i].data|, DrainOutcome(seen[i]).error.value);
    }
  }

  lemma MisframesStays(ms: seq<Memory>, hs: seq<History>, ms': seq<Memory>, hs': seq<History>, i: nat,
                       error: Option<RecordError>)
    requires KernelsRan(ms, hs, ms', hs') && i < |ms|
    ensures error.Some? && Misframes(hs[i].stream, |ms[i].data|, error.value) ==>
              Misframes(hs'[i].stream, |ms'[i].data|, error.value)
  {
    hide Frame;
    if error.Some? && Misframes(hs[i].stream, |ms[i].data|, error.value) {
      var n: nat :| n <= |hs[i].stream| && Frame(hs[i].stream[..n], |ms[i].data|).error == Some(error.value);
      assert hs'[i].stream[..n] == hs[i].stream[..n];
    }
  }

  lemma DrainedRingsOk(ms: seq<Memory>, hs: seq<History>, seen: seq<Memory>, seenHs: seq<History>,
                       now: seq<Memory>, nowHs: seq<History>, decoded: seq<seq<Parsed>>, i: nat)
    requires KernelsRan(ms, hs, seen, seenHs) && KernelsRan(seen, seenHs, now, nowHs)
    requires i < |ms| == |decoded| && forall j :: 0 <= j < |ms| ==> RingOk(ms[j], hs[j], decoded[j])
    requires |seen[i].data| > 0 && DrainOutcome(seen[i]).error == None
    ensures hs[i].consumed + Pending(seen[i]) == |seenHs[i].stream|
    ensures var now', nowHs' := now[i := Release(now[i], seen[i].head)], nowHs[i := Released(nowHs[i], Pending(seen[i]))];
            var decoded' := decoded[i := decoded[i] + DrainOutcome(seen[i]).records];
            forall j :: 0 <= j < |ms| ==> RingOk(now'[j], nowHs'[j], decoded'[j])
  {
    hide RingOk, DrainOutcome;
    KernelsKeepRingsOk(ms, hs, seen, seenHs, decoded);
    KernelsKeepRingsOk(seen, seenHs, now, nowHs, decoded);
    DrainedRingOk(ms[i], hs[i], decoded[i], seen[i], seenHs[i], now[i], nowHs[i]);
  }

  /** Every record handed back to the kernel has been counted exactly once. */
  ghost predicate Counted(ms: seq<Memory>, hs: seq<History>, decoded: seq<seq<Parsed>>, target: u32,
                          samples: seq<CpuSample>, lost: u64) {
    && |ms| == |hs| == |decoded|
    && (forall i :: 0 <= i < |ms| ==> RingOk(ms[i], hs[i], decoded[i]))
    && multiset(samples) == AllSamples(decoded, target)
    && lost == Wrap(AllLost(decoded))
  }

  lemma NothingCounted(ms: seq<Memory>, hs: seq<History>, decoded: seq<seq<Parsed>>, target: u32)
    requires |ms| == |hs| == |decoded|
    requires forall i :: 0 <= i < |ms| ==> Mapped(ms[i]) && Pending(ms[i]) <= |ms[i].data|
    requires forall i :: 0 <= i < |ms| ==> hs[i] == Waiting(ms[i]) && decoded[i] == []
    ensures Counted(ms, hs, decoded, target, [], 0)
  {
    hide Chunks;
    NothingDecoded(decoded, target);
  }

  lemma DrainKeepsCount(ms: seq<Memory>, hs: seq<History>, seen: seq<Memory>, seenHs: seq<History>,
                        now: seq<Memory>, nowHs: seq<History>, decoded: seq<seq<Parsed>>, i: nat,
                        target: u32, samples: seq<CpuSample>, lost: u64)
    requires Counted(ms, hs, decoded, target, samples, lost)
    requires KernelsRan(ms, hs, seen, seenHs) && KernelsRan(seen, seenHs, now, nowHs)
    requires i < |ms| && |seen[i].data| > 0 && DrainOutcome(seen[i]).error == None
    ensures |seen| == |now| == |nowHs| == |seenHs| == |decoded| == |ms|
    ensures hs[i].consumed + Pending(seen[i]) == |seenHs[i].stream|
    ensures var taken := DrainOutcome(seen[i]).records;
            Counted(now[i := Release(now[i], seen[i].head)], nowHs[i := Released(nowHs[i], Pending(seen[i]))],
                    decoded[i := decoded[i] + taken], target,
                    samples + TargetSamples(taken, target), AddLost(lost, taken))
  {
    hide RingOk, DrainOutcome, KernelRan, TargetSamples, AddLost, SumLost, AllSamples, AllLost, Wrap;
    DrainedRingsOk(ms, hs, seen, seenHs, now, nowHs, decoded, i);
    AllAfterTaking(decoded, i, DrainOutcome(seen[i]).records, target);
    AddLostWraps(AllLost(decoded), DrainOutcome(seen[i]).records);
  }

  lemma KernelKeepsCount(ms: seq<Memory>, hs: seq<History>, ms': seq<Memory>, hs': seq<History>, decoded: seq<seq<Parsed>>,
                         target: u32, samples: seq<CpuSample>, lost: u64)
    requires Counted(ms, hs, decoded, target, samples, lost) && KernelsRan(ms, hs, ms', hs')
    ensures Counted(ms', hs', decoded, target, samples, lost)
  {
    hide RingOk, KernelRan;
    KernelsKeepRingsOk(ms, hs, ms', hs', decoded);
  }

  /** If the kernel published whole records, then what was decoded from a ring is a prefix of
      them, reaching at least as far as anything published by the time `count` bytes were. */
  lemma WholeRecordsDelivered(m: Memory, h: History, decoded: seq<Parsed>, rs: seq<Record>, done: nat)
    returns (k: nat)
    requires RingOk(m, h, decoded)
    requires FitRing(rs, |m.data|) && h.stream == EncodeAll(rs)
    requires done <= |rs| && |EncodeAll(rs[..done])| <= h.consumed
    ensures done <= k <= |rs| && decoded == Meanings(rs[..k])
  {
    hide Frame, Chunks;
    k := CleanPrefixIsWhole(rs, h.consumed, |m.data|);
    FrameOfEncodeAll(rs[..k], |m.data|);
    if k < done {
      EncodeAllGrows(rs, k, done, |m.data|);
    }
  }

  lemma EncodeAllGrows(rs: seq<Record>, a: nat, b: nat, ringSize: nat)
    requires FitRing(rs, ringSize) && a < b <= |rs|
    ensures |EncodeAll(rs[..a])| < |EncodeAll(rs[..b])|
  {
    assert rs[..b][..a] == rs[..a];
    EncodeAllSplit(rs[..b], a);
    EncodeHeader(rs[a]);
    assert rs[..b][a..][0] == rs[a];
  }

  /** Where draining `seen` stands after `taken` records, at `position`. */
  ghost predicate DrainedTo(seen: Memory, position: u64, taken: seq<Parsed>)
    requires Mapped(seen)
  {
    && Pending(seen) <= |seen.data|
    && Sub64(position, seen.tail) <= Pending(seen)
    && var rest := Frame(Snapshot(seen.data, seen.head, position), |seen.data|);
       DrainOutcome(seen) == Framed(taken + rest.records, rest.error)
  }

  lemma DrainOverruns(seen: Memory)
    requires Mapped(seen) && Pending(seen) > |seen.data|
    ensures DrainOutcome(seen) == Framed([], Some(BufferOverrun))
  {
  }

  lemma NothingTaken(samples: seq<CpuSample>, lost: u64, target: u32)
    ensures samples + TargetSamples([], target) == samples && AddLost(lost, []) == lost
  {
  }

  /** Collecting one more record. */
  lemma OneTaken(samples: seq<CpuSample>, lost: u64, taken: seq<Parsed>, p: Parsed, target: u32)
    ensures samples + TargetSamples(taken + [p], target) ==
            samples + TargetSamples(taken, target) +
            (if p.sample.Some? && p.sample.value.processId == target then [p.sample.value] else [])
    ensures AddLost(lost, taken + [p]) == Add64(AddLost(lost, taken), p.lostSamples)
  {
    TargetSamplesAppend(taken, [p], target);
    assert [p][1..] == [];
    Assoc(samples, TargetSamples(taken, target), TargetSamples([p], target));
    AddLostSnoc(lost, taken, p);
  }

  lemma DrainStarts(seen: Memory)
    requires Mapped(seen) && Pending(seen) <= |seen.data|
    ensures DrainedTo(seen, seen.tail, [])
  {
    hide Frame, Chunks;
    Distances(seen.tail, seen.tail, seen.tail);
    var all := Frame(Snapshot(seen.data, seen.head, seen.tail), |seen.data|);
    assert [] + all.records == all.records;
  }

  /** One turn of the loop, although the kernel has run since the snapshot. */
  lemma DrainTakes(seen: Memory, now: Memory, position: u64, taken: seq<Parsed>)
    requires Mapped(seen) && Rely(seen, now) && DrainedTo(seen, position, taken) && position != seen.head
    ensures var next := NextRecord(now.data, seen.head, position);
            if next.Ok? then DrainedTo(seen, Add64(position, next.value.size), taken + [next.value.record])
            else DrainOutcome(seen) == Framed(taken, Some(next.error))
    ensures var next := NextRecord(now.data, seen.head, position);
            next.Ok? ==> Sub64(seen.head, Add64(position, next.value.size)) < Sub64(seen.head, position)
  {
    hide Frame, Chunks, NextRecord;
    ReadStable(seen, now, position);
    NextRecordFrames(seen.data, seen.head, position);
    var next := NextRecord(seen.data, seen.head, position);
    if next.Ok? {
      StepForward(seen.tail, position, seen.head, next.value.size);
      DistanceAfter(seen.head, position, next.value.size);
      Assoc(taken, [next.value.record],
            Frame(Snapshot(seen.data, seen.head, Add64(position, next.value.size)), |seen.data|).records);
    } else {
      assert taken + [] == taken;
    }
  }

  lemma DrainEnds(seen: Memory, taken: seq<Parsed>)
    requires Mapped(seen) && DrainedTo(seen, seen.head, taken)
    ensures DrainOutcome(seen) == Framed(taken, None)
  {
    Distances(seen.head, seen.head, seen.head);
    assert taken + [] == taken;
  }
}
