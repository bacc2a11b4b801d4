/** Every interleaving of the kernel's appends with the sampler's drain, one byte, one
    record or one counter store at a time (src/perf/sample_collector.cpp:124-152). */
module Interleaving {
  import opened PerfRecord
  import opened Results
  import opened RingBuffer
  import opened RingProtocol
  import opened Sequences
  import opened Words

  /** Where the drain stands: between drains, inside one with its head snapshot and its
      position, or given up. */
  datatype Phase =
    | Idle
    | Draining(head: u64, position: u64)
    | Failed(error: RecordError)

  datatype State = State(mem: Memory, hist: History, phase: Phase, decoded: seq<Parsed>)

  datatype Event =
    | KernelWrites(k: nat, b: byte)
    | KernelPublishes(n: nat)
    | DrainBegins
    | DrainTakes
    | DrainEnds

  predicate Init(s: State) {
    Mapped(s.mem) && s.mem.head == s.mem.tail && s.hist == History([], 0) && s.phase == Idle && s.decoded == []
  }

  predicate Enabled(s: State, e: Event) {
    Mapped(s.mem) &&
    match e
    case KernelWrites(k, _) => Pending(s.mem) + k < |s.mem.data|
    case KernelPublishes(n) => Pending(s.mem) + n <= |s.mem.data|
    case DrainBegins => s.phase == Idle
    case DrainTakes => s.phase.Draining? && s.phase.position != s.phase.head
    case DrainEnds => s.phase.Draining? && s.phase.position == s.phase.head
  }

  function Apply(s: State, e: Event): State
    requires Enabled(s, e)
  {
    match e
    case KernelWrites(k, b) => s.(mem := WriteByte(s.mem, k, b))
    case KernelPublishes(n) => s.(mem := Publish(s.mem, n), hist := Published(s.hist, s.mem, n))
    case DrainBegins =>
      s.(phase := if Pending(s.mem) > |s.mem.data| then Failed(BufferOverrun) else Draining(s.mem.head, s.mem.tail))
    case DrainTakes =>
      (match NextRecord(s.mem.data, s.phase.head, s.phase.position)
       case Err(error) => s.(phase := Failed(error))
       case Ok(taken) =>
         s.(phase := Draining(s.phase.head, Add64(s.phase.position, taken.size)), decoded := s.decoded + [taken.record]))
    case DrainEnds =>
      State(Release(s.mem, s.phase.position), Released(s.hist, Sub64(s.phase.position, s.mem.tail)), Idle, s.decoded)
  }

  /** How much of the stream the sampler has decoded, and how much its snapshot covers. */
  function Handled(s: State): nat {
    s.hist.consumed + if s.phase.Draining? then Sub64(s.phase.position, s.mem.tail) else 0
  }

  function Snapped(s: State): nat {
    s.hist.consumed + if s.phase.Draining? then Sub64(s.phase.head, s.mem.tail) else 0
  }

  ghost predicate Inv(s: State) {
    && Agrees(s.mem, s.hist)
    && Handled(s) <= Snapped(s) <= |s.hist.stream|
    && (!s.phase.Failed? ==> Frame(s.hist.stream[..Handled(s)], |s.mem.data|) == Framed(s.decoded, None))
  }

  /** What is left of a snapshot is what the stream holds between the two counts. */
  lemma SnapshotIsStream(s: State)
    requires Inv(s) && s.phase.Draining?
    ensures Snapshot(s.mem.data, s.phase.head, s.phase.position) == s.hist.stream[Handled(s)..Snapped(s)]
    ensures Sub64(s.phase.head, s.phase.position) == Snapped(s) - Handled(s)
  {
    var a := Sub64(s.phase.position, s.mem.tail);
    Distances(s.mem.tail, s.phase.position, s.phase.head);
    RingHoldsStream(s.mem, s.hist, a, Sub64(s.phase.head, s.phase.position));
  }

  lemma TakeKeepsInv(s: State)
    requires Inv(s) && Enabled(s, DrainTakes)
    ensures Inv(Apply(s, DrainTakes))
  {
    hide Chunks, Frame, Add64;
    var next := NextRecord(s.mem.data, s.phase.head, s.phase.position);
    if next.Ok? {
      StepForward(s.mem.tail, s.phase.position, s.phase.head, next.value.size);
      TakeKeepsFraming(s, next.value);
    }
  }

  lemma TakeKeepsFraming(s: State, taken: Taken)
    requires Inv(s) && Enabled(s, DrainTakes)
    requires NextRecord(s.mem.data, s.phase.head, s.phase.position) == Ok(taken)
    ensures Handled(s) + taken.size <= |s.hist.stream|
    ensures Frame(s.hist.stream[..Handled(s) + taken.size], |s.mem.data|) == Framed(s.decoded + [taken.record], None)
  {
    hide Chunks, Add64, Sub64, Frame, NextRecord;
    var data, position, stream := s.mem.data, s.phase.position, s.hist.stream;
    Distances(s.mem.tail, position, s.phase.head);
    RingHoldsStream(s.mem, s.hist, Sub64(position, s.mem.tail), taken.size);
    TakenFrames(data, s.phase.head, position);
    FrameExtends(stream, Handled(s), Chunks(data, position, taken.size), |data|);
  }

  lemma TakenFrames(data: seq<byte>, head: u64, position: u64)
    requires |data| > 0 && NextRecord(data, head, position).Ok?
    ensures var taken := NextRecord(data, head, position).value;
            Frame(Chunks(data, position, taken.size), |data|) == Framed([taken.record], None)
  {
    var first := Chunks(data, position, NextRecord(data, head, position).value.size);
    FrameCons(first, [], |data|);
    assert first + [] == first;
  }

  lemma EndKeepsInv(s: State)
    requires Inv(s) && Enabled(s, DrainEnds)
    ensures Inv(Apply(s, DrainEnds))
  {
    ReleaseAgrees(s.mem, s.hist, s.phase.position);
  }

  /** Every step keeps the invariant. */
  lemma StepKeepsInv(s: State, e: Event)
    requires Inv(s) && Enabled(s, e)
    ensures Inv(Apply(s, e))
  {
    match e
    case KernelWrites(k, b) => WriteByteIsSafe(s.mem, s.hist, k, b);
    case KernelPublishes(n) => PublishKeepsInv(s, n);
    case DrainBegins => Distances(s.mem.tail, s.mem.tail, s.mem.tail);
    case DrainTakes => TakeKeepsInv(s);
    case DrainEnds => EndKeepsInv(s);
  }

  lemma PublishKeepsInv(s: State, n: nat)
    requires Inv(s) && Enabled(s, KernelPublishes(n))
    ensures Inv(Apply(s, KernelPublishes(n)))
  {
    hide Chunks, Frame;
    PublishIsSafe(s.mem, s.hist, n);
    var stream' := Published(s.hist, s.mem, n).stream;
    assert stream'[..Handled(s)] == s.hist.stream[..Handled(s)];
  }

  // ----- whole runs

  ghost predicate Run(states: seq<State>, events: seq<Event>) {
    && |states| == |events| + 1
    && Init(states[0])
    && forall i :: 0 <= i < |events| ==> Enabled(states[i], events[i]) && states[i + 1] == Apply(states[i], events[i])
  }

  lemma {:induction false} RunKeepsInv(states: seq<State>, events: seq<Event>, i: nat)
    requires Run(states, events) && i < |states|
    ensures Inv(states[i])
  {
    if i == 0 {
      Distances(states[0].mem.tail, states[0].mem.tail, states[0].mem.tail);
    } else {
      RunKeepsInv(states, events, i - 1);
      StepKeepsInv(states[i - 1], events[i - 1]);
    }
  }

  /** The kernel has published whole records, none longer than the ring. */
  ghost predicate Whole(s: State) {
    exists rs :: FitRing(rs, |s.mem.data|) && s.hist.stream == EncodeAll(rs)
  }

  /** The drain has not given up and will not on what its snapshot covers. */
  ghost predicate Clean(s: State)
    requires Inv(s)
  {
    !s.phase.Failed? && (s.phase.Draining? ==> Frame(s.hist.stream[..Snapped(s)], |s.mem.data|).error == None)
  }

  lemma CleanTakes(s: State)
    requires Inv(s) && Clean(s) && Enabled(s, DrainTakes)
    ensures NextRecord(s.mem.data, s.phase.head, s.phase.position).Ok?
  {
    hide Frame, Chunks, NextRecord;
    var stream, n := s.hist.stream, Snapped(s) - Handled(s);
    SnapshotIsStream(s);
    FrameExtends(stream, Handled(s), stream[Handled(s)..Handled(s) + n], |s.mem.data|);
    NextRecordFrames(s.mem.data, s.phase.head, s.phase.position);
  }

  lemma StepKeepsClean(s: State, e: Event)
    requires Inv(s) && Clean(s) && Enabled(s, e) && Whole(s)
    ensures Inv(Apply(s, e)) && Clean(Apply(s, e))
  {
    hide Frame, Chunks, NextRecord;
    StepKeepsInv(s, e);
    match e
    case KernelWrites(k, b) =>
    case KernelPublishes(n) =>
      TakeOfConcatShort(s.hist.stream, Chunks(s.mem.data, s.mem.head, n), Snapped(s));
    case DrainBegins =>
      var rs :| FitRing(rs, |s.mem.data|) && s.hist.stream == EncodeAll(rs);
      FrameOfEncodeAll(rs, |s.mem.data|);
      assert s.hist.stream[..|s.hist.stream|] == s.hist.stream;
    case DrainTakes => CleanTakes(s);
    case DrainEnds =>
  }

  lemma {:induction false} RunStaysClean(states: seq<State>, events: seq<Event>, i: nat)
    requires Run(states, events) && i < |states|
    requires forall j :: 0 <= j < |states| ==> Whole(states[j])
    ensures Inv(states[i]) && Clean(states[i])
  {
    RunKeepsInv(states, events, i);
    if i > 0 {
      RunStaysClean(states, events, i - 1);
      StepKeepsClean(states[i - 1], events[i - 1]);
    }
  }

  /** The bytes from the sampler's position up to the published head. */
  function StillInRing(s: State): seq<byte>
    requires Mapped(s.mem)
  {
    Snapshot(s.mem.data, s.mem.head, if s.phase.Draining? then s.phase.position else s.mem.tail)
  }

  lemma StillInRingIsStream(s: State)
    requires Inv(s) && !s.phase.Failed?
    ensures StillInRing(s) == s.hist.stream[Handled(s)..]
  {
    hide Frame, Chunks;
    var position := if s.phase.Draining? then s.phase.position else s.mem.tail;
    Distances(s.mem.tail, s.mem.tail, s.mem.head);
    ReleaseDistances(s.mem.tail, position, s.mem.head);
    RingHoldsStream(s.mem, s.hist, Sub64(position, s.mem.tail), Sub64(s.mem.head, position));
  }

  /** The records decoded so far, followed by those still encoded in the ring, are the
      records `rs`, each once and in order. */
  ghost predicate Delivered(s: State, rs: seq<Record>)
    requires Mapped(s.mem)
  {
    !s.phase.Failed? &&
    exists k :: 0 <= k <= |rs| && s.decoded == Meanings(rs[..k]) && StillInRing(s) == EncodeAll(rs[k..])
  }

  /** Exactly-once, in-order delivery: in every state of every interleaving in which the
      kernel publishes whole records, those records are delivered and no drain has failed,
      whatever the counters started from. */
  lemma ExactlyOnce(states: seq<State>, events: seq<Event>, i: nat, rs: seq<Record>)
    requires Run(states, events) && i < |states|
    requires forall j :: 0 <= j < |states| ==> Whole(states[j])
    requires FitRing(rs, |states[i].mem.data|) && states[i].hist.stream == EncodeAll(rs)
    ensures Mapped(states[i].mem) && Delivered(states[i], rs)
  {
    hide Frame, Chunks, EncodeAll, Meanings;
    var s := states[i];
    RunStaysClean(states, events, i);
    StillInRingIsStream(s);
    var k := CleanPrefixIsWhole(rs, Handled(s), |s.mem.data|);
    FrameOfEncodeAll(rs[..k], |s.mem.data|);
    EncodeAllSplit(rs, k);
    assert EncodeAll(rs)[|EncodeAll(rs[..k])|..] == EncodeAll(rs[k..]);
  }

  // ----- what a drain may rely on

  lemma RelyReflexive(m: Memory)
    ensures Rely(m, m)
  {
  }

  lemma StepWithoutEndIsRely(s: State, e: Event)
    requires Enabled(s, e) && e != DrainEnds
    ensures Rely(s.mem, Apply(s, e).mem)
  {
    match e
    case KernelWrites(k, b) => WriteByteIsSafe(s.mem, s.hist, k, b);
    case KernelPublishes(n) => PublishIsSafe(s.mem, s.hist, n);
    case DrainBegins =>
    case DrainTakes =>
    case DrainEnds =>
  }

  lemma {:induction false} StepsWithoutEndAreRely(states: seq<State>, events: seq<Event>, i: nat, j: nat)
    requires Run(states, events) && i <= j < |states| && DrainEnds !in events[i..j]
    ensures Mapped(states[i].mem) && Rely(states[i].mem, states[j].mem)
    decreases j
  {
    hide Rely, Agrees, Apply, Enabled;
    RunKeepsMapped(states, events, i);
    if i == j {
      RelyReflexive(states[i].mem);
    } else {
      assert events[j - 1] in events[i..j];
      assert forall e :: e in events[i..j - 1] ==> e in events[i..j];
      StepsWithoutEndAreRely(states, events, i, j - 1);
      RunSteps(states, events, j - 1);
      StepWithoutEndIsRely(states[j - 1], events[j - 1]);
      RelyTransitive(states[i].mem, states[j - 1].mem, states[j].mem);
    }
  }

  lemma RunSteps(states: seq<State>, events: seq<Event>, i: nat)
    requires Run(states, events) && i < |events|
    ensures i + 1 < |states| && Enabled(states[i], events[i]) && states[i + 1] == Apply(states[i], events[i])
  {
  }

  lemma RunKeepsMapped(states: seq<State>, events: seq<Event>, i: nat)
    requires Run(states, events) && i < |states|
    ensures Mapped(states[i].mem)
  {
    RunKeepsInv(states, events, i);
  }

  /** From the moment a drain takes its snapshot until it ends, no byte between the stored
      tail and the snapshot changes, and neither does the stored tail: a drain that gives up
      leaves data_tail where it was. */
  lemma SnapshotUndisturbed(states: seq<State>, events: seq<Event>, i: nat, j: nat)
    requires Run(states, events) && i <= j < |states| && DrainEnds !in events[i..j]
    requires states[i].phase.Draining?
    ensures states[j].mem.tail == states[i].mem.tail && |states[j].mem.data| == |states[i].mem.data| > 0
    ensures Snapshot(states[j].mem.data, states[i].phase.head, states[i].mem.tail)
            == Snapshot(states[i].mem.data, states[i].phase.head, states[i].mem.tail)
  {
    hide Chunks;
    RunKeepsInv(states, events, i);
    StepsWithoutEndAreRely(states, events, i, j);
    PrefixStable(states[i].mem.data, states[j].mem.data, states[i].mem.tail, Pending(states[i].mem),
                 Sub64(states[i].phase.head, states[i].mem.tail));
  }

  // ----- a drain catches up

  predicate SameDrain(s: State, t: State) {
    && !t.phase.Idle?
    && (t.phase.Draining? ==>
          s.phase.Draining? && t.phase.head == s.phase.head && t.hist.consumed == s.hist.consumed)
  }

  lemma StepKeepsDrain(s: State, e: Event)
    requires Enabled(s, e) && e != DrainEnds && !s.phase.Idle?
    ensures SameDrain(s, Apply(s, e))
  {
    hide Chunks, NextRecord;
  }

  lemma {:induction false} StepsKeepDrain(states: seq<State>, events: seq<Event>, i: nat, j: nat)
    requires Run(states, events) && i <= j < |states| && DrainEnds !in events[i..j] && !states[i].phase.Idle?
    ensures SameDrain(states[i], states[j])
    decreases j
  {
    hide Apply, Enabled;
    if i < j {
      assert events[j - 1] in events[i..j];
      assert forall e :: e in events[i..j - 1] ==> e in events[i..j];
      StepsKeepDrain(states, events, i, j - 1);
      RunSteps(states, events, j - 1);
      StepKeepsDrain(states[j - 1], events[j - 1]);
    }
  }

  lemma AllTaken(s: State)
    requires Inv(s)
    ensures s.hist.consumed + Sub64(s.mem.head, s.mem.tail) == |s.hist.stream|
  {
  }

  /** A drain that ends has given back everything that was published when it began, for every
      interleaving, so a drain is never idle work. */
  lemma DrainCatchesUp(states: seq<State>, events: seq<Event>, i: nat, j: nat)
    requires Run(states, events) && i < j < |events| && events[i] == DrainBegins && events[j] == DrainEnds
    requires DrainEnds !in events[i + 1..j]
    ensures states[j + 1].hist.consumed == |states[i].hist.stream|
  {
    RunKeepsInv(states, events, i);
    AllTaken(states[i]);
    RunSteps(states, events, i);
    RunSteps(states, events, j);
    StepsKeepDrain(states, events, i + 1, j);
    StepsWithoutEndAreRely(states, events, i + 1, j);
    hide Chunks, Inv, Agrees;
    assert states[i + 1].mem == states[i].mem && states[j].mem.tail == states[i].mem.tail;
  }
}
