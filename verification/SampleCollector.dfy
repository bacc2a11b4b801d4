/** SampleCollector of src/perf/sample_collector.cpp: draining the rings, the poll loop of the
    worker, starting and stopping. The kernel runs between any two steps of the worker. */
module SampleCollector {
  import opened Delivery
  import opened PerfRecord
  import opened Resources
  import opened Results
  import opened RingBuffer
  import opened RingProtocol
  import opened Sorting
  import opened Words

  /** What poll reports for one ring's descriptor: POLLERR or POLLNVAL, POLLIN, POLLHUP. */
  datatype Ready = Ready(broken: bool, readable: bool, hungUp: bool)

  /** What one call of poll does. `wake` is what it says of the wake-up eventfd. */
  datatype Poll =
    | Interrupted
    | PollFailed
    | Returned(wake: bool, events: seq<Ready>)

  datatype Failure =
    | BadRecord(error: RecordError)
    | PollError
    | DescriptorFailed
    | WakeError

  datatype StartError = StartedTwice | SignalMask | ThreadCreation

  datatype ReadError = NotStopped | Collection(failure: Failure)

  /** The revents of a ring: none for a descriptor the loop has disabled. */
  function Revents(events: seq<Ready>, enabled: seq<bool>, i: nat): Ready {
    if i < |events| && i < |enabled| && enabled[i] then events[i] else Ready(false, false, false)
  }

  /** The ring is to be drained. */
  predicate Wants(ready: Ready) {
    ready.readable || ready.hungUp
  }

  /** How many calls of poll return before the one that reports the wake-up. */
  function Woken(polls: seq<Poll>): (n: nat)
    ensures n <= |polls|
    ensures forall k :: 0 <= k < n ==> !(polls[k].Returned? && polls[k].wake)
    ensures n < |polls| ==> polls[n].Returned? && polls[n].wake
  {
    if polls == [] || (polls[0].Returned? && polls[0].wake) then 0 else 1 + Woken(polls[1..])
  }

  /** Ring i is still polled in call k: no call before has reported a hang-up. */
  predicate StillPolled(polls: seq<Poll>, k: nat, i: nat)
    requires k <= |polls|
  {
    forall j :: 0 <= j < k && polls[j].Returned? && i < |polls[j].events| ==> !polls[j].events[i].hungUp
  }

  /** Call k reports an event of ring i. */
  predicate Reports(polls: seq<Poll>, k: nat, i: nat)
    requires k < |polls|
  {
    polls[k].Returned? && i < |polls[k].events| && StillPolled(polls, k, i)
  }

  /** Call k reports the descriptor of one of so many rings as broken. */
  predicate Breaks(polls: seq<Poll>, k: nat, rings: nat)
    requires k < |polls|
  {
    exists i :: 0 <= i < rings && Reports(polls, k, i) && polls[k].events[i].broken
  }

  /** Before the wake-up a call of poll fails, or reports a broken descriptor. */
  predicate Troubled(polls: seq<Poll>, rings: nat) {
    exists k :: 0 <= k < Woken(polls) && (polls[k].PollFailed? || Breaks(polls, k, rings))
  }

  /** What makes a worker fail: a call of poll that fails, or reports a broken descriptor, before the
      wake-up; or a ring whose published stream is not whole records, where the worker's error is
      the one of the stream. */
  ghost predicate Caused(failure: Failure, polls: seq<Poll>, memories: seq<Memory>, histories: seq<History>)
    requires |memories| == |histories|
  {
    match failure
    case PollError => exists k :: 0 <= k < Woken(polls) && polls[k].PollFailed?
    case DescriptorFailed => exists k :: 0 <= k < Woken(polls) && Breaks(polls, k, |memories|)
    case BadRecord(error) => Misread(error, memories, histories)
    case WakeError => false
  }

  ghost predicate Misread(error: RecordError, memories: seq<Memory>, histories: seq<History>)
    requires |memories| == |histories|
  {
    exists i :: 0 <= i < |memories| && Misframes(histories[i].stream, |memories[i].data|, error)
  }

  lemma NextWoken(polls: seq<Poll>, k: nat)
    requires k <= Woken(polls) && k < |polls|
    ensures k < Woken(polls) <==> !(polls[k].Returned? && polls[k].wake)
  {
  }

  /** One turn of the poll loop: how much each ring had published when poll returned, and how much of
      it had been taken before poll was called again. */
  datatype Turn = Turn(published: seq<nat>, taken: seq<nat>)

  ghost function Lengths(hs: seq<History>): seq<nat> {
    seq(|hs|, i requires 0 <= i < |hs| => |hs[i].stream|)
  }

  ghost function Consumed(hs: seq<History>): seq<nat> {
    seq(|hs|, i requires 0 <= i < |hs| => hs[i].consumed)
  }

  /** In turn k every ring that was reported readable or hung up has been emptied of all it had
      published by then. */
  ghost predicate Emptied(polls: seq<Poll>, k: nat, turn: Turn)
    requires k < |polls|
  {
    |turn.published| == |turn.taken| &&
    forall i :: 0 <= i < |turn.published| && Reports(polls, k, i) && (polls[k].events[i].readable || polls[k].events[i].hungUp) ==>
      turn.published[i] <= turn.taken[i]
  }

  /** What the loop reads of a ring, given which rings it still polls. */
  lemma ScanSees(polls: seq<Poll>, k: nat, enabled: seq<bool>)
    requires k < |polls| && polls[k].Returned?
    requires forall j :: 0 <= j < |enabled| ==> enabled[j] == StillPolled(polls, k, j)
    ensures forall j :: 0 <= j < |enabled| ==>
      Revents(polls[k].events, enabled, j) == if Reports(polls, k, j) then polls[k].events[j] else Ready(false, false, false)
    ensures Breaks(polls, k, |enabled|) <==> exists j :: 0 <= j < |enabled| && Revents(polls[k].events, enabled, j).broken
  {
    hide StillPolled;
    if Breaks(polls, k, |enabled|) {
      var j :| 0 <= j < |enabled| && Reports(polls, k, j) && polls[k].events[j].broken;
      assert Revents(polls[k].events, enabled, j).broken;
    }
  }

  /** The turns so far: of lengths that only grow, and, while nothing is miscounted, emptied. */
  ghost predicate Recorded(polls: seq<Poll>, turns: seq<Turn>, lengths: seq<nat>, tracked: bool) {
    |turns| <= |polls| && forall k :: 0 <= k < |turns| ==>
      && |turns[k].published| == |lengths|
      && (forall i :: 0 <= i < |lengths| ==> lengths[i] <= turns[k].published[i])
      && (tracked ==> Emptied(polls, k, turns[k]))
  }

  lemma NothingRecorded(polls: seq<Poll>, lengths: seq<nat>, tracked: bool)
    ensures Recorded(polls, [], lengths, tracked)
  {
  }

  lemma RecordedMore(polls: seq<Poll>, turns: seq<Turn>, turn: Turn, lengths: seq<nat>, tracked: bool)
    requires Recorded(polls, turns, lengths, tracked) && |turns| < |polls| && |turn.published| == |lengths|
    requires forall i :: 0 <= i < |lengths| ==> lengths[i] <= turn.published[i]
    requires tracked ==> Emptied(polls, |turns|, turn)
    ensures Recorded(polls, turns + [turn], lengths, tracked)
  {
    hide Emptied;
  }

  /** Nothing went wrong in the first n calls. */
  predicate Quiet(polls: seq<Poll>, n: nat, rings: nat)
    requires n <= |polls|
  {
    forall k :: 0 <= k < n ==> !polls[k].PollFailed? && !Breaks(polls, k, rings)
  }

  lemma QuietMeans(polls: seq<Poll>, rings: nat)
    ensures Quiet(polls, Woken(polls), rings) <==> !Troubled(polls, rings)
  {
    hide Breaks;
  }

  lemma QuietMore(polls: seq<Poll>, n: nat, rings: nat)
    requires n < |polls|
    ensures Quiet(polls, n + 1, rings) <==> Quiet(polls, n, rings) && !polls[n].PollFailed? && !Breaks(polls, n, rings)
  {
    hide Breaks;
  }

  /** Exactly the rings still polled are enabled. */
  predicate Polled(polls: seq<Poll>, n: nat, enabled: seq<bool>)
    requires n <= |polls|
  {
    forall j :: 0 <= j < |enabled| ==> enabled[j] == StillPolled(polls, n, j)
  }

  lemma AllPolled(polls: seq<Poll>, enabled: seq<bool>)
    requires forall j :: 0 <= j < |enabled| ==> enabled[j]
    ensures Polled(polls, 0, enabled) && Quiet(polls, 0, |enabled|)
  {
  }

  lemma NeverBreaks(polls: seq<Poll>, k: nat, rings: nat)
    requires k < |polls|
    ensures !polls[k].Returned? ==> !Breaks(polls, k, rings) && forall j: nat :: !Reports(polls, k, j)
  {
  }

  lemma NothingReported(polls: seq<Poll>, k: nat, turn: Turn)
    requires k < |polls| && |turn.published| == |turn.taken|
    ensures !polls[k].Returned? ==> Emptied(polls, k, turn)
  {
  }

  lemma PolledNext(polls: seq<Poll>, k: nat, j: nat)
    requires k < |polls|
    ensures StillPolled(polls, k + 1, j) <==> StillPolled(polls, k, j) && !(Reports(polls, k, j) && polls[k].events[j].hungUp)
  {
  }

  lemma EmptiedIf(polls: seq<Poll>, k: nat, turn: Turn, enabled: seq<bool>)
    requires k < |polls| && polls[k].Returned? && |turn.published| == |turn.taken| == |enabled|
    requires forall j :: 0 <= j < |enabled| ==> enabled[j] == StillPolled(polls, k, j)
    requires forall j :: 0 <= j < |enabled| ==> Wants(Revents(polls[k].events, enabled, j)) ==> turn.published[j] <= turn.taken[j]
    ensures Emptied(polls, k, turn)
  {
    ScanSees(polls, k, enabled);
    hide Reports, Revents;
  }

  /** In the order of their times, as stop leaves them. */
  ghost predicate InTimeOrder(samples: seq<CpuSample>) {
    forall i, j :: 0 <= i < j < |samples| ==> samples[i].time <= samples[j].time
  }

  /** One record out of the ring: its header, then, if its size makes sense, all of it. */
  method ReadRecord(data: seq<byte>, head: u64, position: u64) returns (r: Result<Taken, RecordError>)
    requires 0 < |data| < TWO64 && position != head
    ensures r == NextRecord(data, head, position)
  {
    if Sub64(head, position) < HEADER_SIZE {
      return Err(TruncatedRingHeader);
    }
    var header := new byte[HEADER_SIZE];
    var copied := CopyRingBytes(data, position, header);
    var size := SizeField(header[..]);
    if size < HEADER_SIZE || size > |data| || size > Sub64(head, position) {
      return Err(InvalidRingSize);
    }
    var bytes := new byte[size];
    copied := CopyRingBytes(data, position, bytes);
    var parsed := Parse(bytes[..]);
    match parsed
    case Err(e) => return Err(e);
    case Ok(p) => return Ok(Taken(size, p));
  }

  method SortedByTime(samples: seq<CpuSample>) returns (sorted: seq<CpuSample>)
    ensures multiset(sorted) == multiset(samples) && InTimeOrder(sorted)
  {
    sorted := SortBy(samples, (s: CpuSample) => s.time as real);
  }

  lemma Rearranged(ms: seq<Memory>, hs: seq<History>, decoded: seq<seq<Parsed>>, target: u32,
                   samples: seq<CpuSample>, samples': seq<CpuSample>, lost: u64)
    requires multiset(samples) == multiset(samples')
    ensures Counted(ms, hs, decoded, target, samples, lost) ==> Counted(ms, hs, decoded, target, samples', lost)
  {
  }

  class Collector {
    const target: u32
    /** The eventfd that wakes the worker's poll. */
    const wake: UniqueFd
    /** Whether the kernel always publishes whole records, none longer than the ring. */
    const faithful: bool
    var memories: seq<Memory>
    var samples: seq<CpuSample>
    var lost: u64
    var failure: Option<Failure>
    var started: bool
    var stopped: bool
    /** The worker's stop token. */
    var stopRequested: bool
    /** The worker will make no further call of poll: from now on the stop may be requested. */
    var lastTurn: bool

    /** The history of each ring, and the records decoded from it by finished drains. */
    ghost var histories: seq<History>
    ghost var decoded: seq<seq<Parsed>>
    /** How much each ring had published when the stop was requested. */
    ghost var atStop: seq<nat>

    ghost predicate Valid()
      reads this
    {
      && |histories| == |memories| == |decoded|
      && (forall i :: 0 <= i < |memories| ==> Mapped(memories[i]))
      && (faithful ==> forall i :: 0 <= i < |memories| ==> WholeRecords(histories[i].stream, |memories[i].data|))
      && (failure != None ==> stopped)
      && (stopped ==> InTimeOrder(samples))
      && (stopRequested ==> lastTurn)
      && (stopRequested ==> |atStop| == |memories|)
      && (stopRequested ==> forall i :: 0 <= i < |memories| ==> atStop[i] <= |histories[i].stream|)
      && (faithful && stopRequested ==>
          forall i :: 0 <= i < |memories| ==> WholeRecords(histories[i].stream[..atStop[i]], |memories[i].data|))
    }

    /** Every record handed back to the kernel has been counted exactly once. */
    ghost predicate Tracked()
      reads this
    {
      Counted(memories, histories, decoded, target, samples, lost)
    }

    /** Everything published before the stop was requested has been decoded. */
    ghost predicate Complete()
      reads this
      requires Valid()
    {
      stopRequested && forall i :: 0 <= i < |memories| ==> atStop[i] <= histories[i].consumed
    }

    /** Nothing has been lost or counted twice on the way to a stop, and nothing was left behind by one. */
    ghost predicate OnTrack()
      reads this
      requires Valid()
    {
      Tracked() && (stopped && started ==> Complete())
    }

    /** No worker is at work. */
    ghost predicate AtRest()
      reads this
    {
      Valid() && (stopRequested ==> stopped)
    }

    /** The worker, if it runs, is joined without failure. */
    predicate Succeeds(polls: seq<Poll>, wakeFails: bool)
      reads this`memories
    {
      faithful && !Troubled(polls, |memories|) && !wakeFails
    }

    /** Whatever the rings hold already belongs to what is to be collected. */
    constructor (memories: seq<Memory>, target: u32, wake: UniqueFd, faithful: bool)
      requires forall i :: 0 <= i < |memories| ==> Mapped(memories[i])
      requires faithful ==> forall i :: 0 <= i < |memories| ==> HoldsWhole(memories[i])
      ensures AtRest() && this.memories == memories && this.target == target && this.wake == wake && this.faithful == faithful
      ensures !started && !stopped && !stopRequested && failure == None && samples == [] && lost == 0
      ensures (forall i :: 0 <= i < |memories| ==> Pending(memories[i]) <= |memories[i].data|) ==>
                Tracked() && histories == seq(|memories|, i requires 0 <= i < |memories| => Waiting(memories[i]))
    {
      this.memories, this.target, this.wake, this.faithful := memories, target, wake, faithful;
      samples, lost, failure, started, stopped, stopRequested, lastTurn := [], 0, None, false, false, false, false;
      histories := seq(|memories|, i requires 0 <= i < |memories| => Waiting(memories[i]));
      decoded := seq(|memories|, i => []);
      new;
      hide Chunks, WholeRecords, Counted, Waiting, InTimeOrder;
      if forall i :: 0 <= i < |memories| ==> Pending(memories[i]) <= |memories[i].data| {
        NothingCounted(memories, histories, decoded, target);
      }
    }

    /** The main thread's request_stop. */
    method RequestStop()
      requires Valid() && lastTurn
      modifies this`stopRequested, this`atStop
      ensures Valid() && stopRequested
      ensures old(stopRequested) ==> atStop == old(atStop)
      ensures !old(stopRequested) ==> forall i :: 0 <= i < |memories| ==> atStop[i] == |histories[i].stream|
    {
      hide WholeRecords;
      if !stopRequested {
        stopRequested := true;
        ghost var hs := histories;
        atStop := seq(|hs|, i requires 0 <= i < |hs| => |hs[i].stream|);
        assert forall i :: 0 <= i < |hs| ==> hs[i].stream[..atStop[i]] == hs[i].stream;
      }
    }

    /** The kernel writes or publishes on some ring, as far as data_tail leaves it room. */
    method KernelStep()
      requires Valid()
      modifies this`memories, this`histories
      ensures Valid()
      ensures KernelsRan(old(memories), old(histories), memories, histories)
    {
      hide Agrees, Rely, KernelsRan, Chunks, WholeRecords;
      KernelsRanReflexive(memories, histories);
      var i: nat, k: nat, b: byte, publish: bool := *, *, *, *;
      if i < |memories| && Pending(memories[i]) + k < |memories[i].data| {
        var m, h := memories[i], histories[i];
        if publish {
          if !faithful || WholeRecords(Chunks(m.data, m.head, k), |m.data|) {
            if faithful {
              PublishKeepsWhole(m, h, k);
            }
            PublishRan(m, h, k);
            OneKernelRan(memories, histories, i, Publish(m, k), Published(h, m, k));
            memories, histories := memories[i := Publish(m, k)], histories[i := Published(h, m, k)];
            assert stopRequested ==> histories[i].stream[..atStop[i]] == h.stream[..atStop[i]];
          }
        } else {
          WriteByteRan(m, h, k, b);
          OneKernelRan(memories, histories, i, WriteByte(m, k, b), h);
          memories, histories := memories[i := WriteByte(m, k, b)], histories[i := h];
        }
      }
    }

    /** Anything else that may happen between two steps of the worker: the kernel writes and
        publishes on any ring, as often as it likes, and in the last turn the stop may be requested. */
    method Interfere()
      requires Valid()
      modifies this`memories, this`histories, this`stopRequested, this`atStop
      ensures Valid()
      ensures KernelsRan(old(memories), old(histories), memories, histories)
      ensures old(stopRequested) ==> stopRequested && atStop == old(atStop)
    {
      var steps: nat := *;
      while steps > 0
        invariant Valid()
        invariant KernelsRan(old(memories), old(histories), memories, histories)
        invariant old(stopRequested) ==> stopRequested && atStop == old(atStop)
      {
        ghost var ms, hs := memories, histories;
        KernelStep();
        KernelsRanTransitive(old(memories), old(histories), ms, hs, memories, histories);
        var stopNow: bool := *;
        if stopNow && lastTurn {
          RequestStop();
        }
        steps := steps - 1;
      }
    }

    /** drain's loop, up to the head of the snapshot. */
    method TakeRecords(i: nat, ghost seen: Memory, head: u64) returns (error: Option<RecordError>, ghost taken: seq<Parsed>)
      requires Valid() && !stopped && i < |memories|
      requires Mapped(seen) && Pending(seen) <= |seen.data| && Rely(seen, memories[i])
      requires head == seen.head && memories[i].tail == seen.tail
      modifies this`memories, this`histories, this`samples, this`lost, this`stopRequested, this`atStop
      ensures Valid() && |memories| == |old(memories)| && KernelsRan(old(memories), old(histories), memories, histories)
      ensures DrainOutcome(seen) == Framed(taken, error)
      ensures samples == old(samples) + TargetSamples(taken, target)
      ensures lost == AddLost(old(lost), taken)
      ensures old(stopRequested) ==> stopRequested && atStop == old(atStop)
    {
      hide Frame, Chunks, NextRecord, Agrees, DrainOutcome, DrainedTo, TargetSamples, AddLost, Rely, KernelRan;
      hide KernelsRan, Add64, InTimeOrder, WholeRecords;
      ghost var ms, hs := memories, histories;
      KernelsRanReflexive(ms, hs);
      var position := memories[i].tail;
      taken := [];
      DrainStarts(seen);
      NothingTaken(samples, lost, target);
      while position != head
        invariant Valid() && |memories| == |ms| && KernelsRan(ms, hs, memories, histories)
        invariant DrainedTo(seen, position, taken) && Rely(seen, memories[i])
        invariant samples == old(samples) + TargetSamples(taken, target)
        invariant lost == AddLost(old(lost), taken)
        invariant old(stopRequested) ==> stopRequested && atStop == old(atStop)
        decreases Sub64(head, position)
      {
        var next := ReadRecord(memories[i].data, head, position);
        DrainTakes(seen, memories[i], position, taken);
        if next.Err? {
          return Some(next.error), taken;
        }
        var record := next.value.record;
        OneTaken(old(samples), old(lost), taken, record, target);
        if record.sample.Some? && record.sample.value.processId == target {
          samples := samples + [record.sample.value];
        }
        lost := Add64(lost, record.lostSamples);
        position := Add64(position, next.value.size);
        taken := taken + [record];
        KernelRuns(i, seen, ms, hs);
      }
      DrainEnds(seen, taken);
      return None, taken;
    }

    method KernelRuns(i: nat, ghost seen: Memory, ghost ms: seq<Memory>, ghost hs: seq<History>)
      requires Valid() && i < |memories| == |ms|
      requires Mapped(seen) && Rely(seen, memories[i])
      requires (forall j :: 0 <= j < |ms| ==> Mapped(ms[j])) && KernelsRan(ms, hs, memories, histories)
      modifies this`memories, this`histories, this`stopRequested, this`atStop
      ensures Valid() && |memories| == |ms| && KernelsRan(ms, hs, memories, histories)
      ensures Rely(seen, memories[i])
      ensures old(stopRequested) ==> stopRequested && atStop == old(atStop)
    {
      Interfere();
      RelyTransitive(seen, old(memories)[i], memories[i]);
      KernelsRanTransitive(ms, hs, old(memories), old(histories), memories, histories);
    }

    /** The load of data_head, with what the memory looked like then. */
    method LoadHead(i: nat) returns (head: u64, ghost seen: seq<Memory>, ghost seenHs: seq<History>)
      requires Valid() && i < |memories|
      modifies this`memories, this`histories, this`stopRequested, this`atStop
      ensures Valid() && |memories| == |old(memories)| == |seen|
      ensures KernelsRan(old(memories), old(histories), seen, seenHs) && KernelsRan(seen, seenHs, memories, histories)
      ensures (forall j :: 0 <= j < |seen| ==> Mapped(seen[j])) && head == seen[i].head
      ensures Rely(old(memories)[i], seen[i]) && Rely(seen[i], memories[i])
      ensures memories[i].tail == seen[i].tail == old(memories)[i].tail && |memories[i].data| == |seen[i].data|
      ensures forall j :: 0 <= j < |memories| ==>
                && histories[j].consumed == old(histories)[j].consumed
                && |old(histories)[j].stream| <= |seenHs[j].stream| <= |histories[j].stream|
      ensures old(Tracked()) ==>
                var error := DrainOutcome(seen[i]).error;
                && (faithful ==> error == None)
                && (error.Some? ==> Misframes(histories[i].stream, |memories[i].data|, error.value))
      ensures old(stopRequested) ==> stopRequested && atStop == old(atStop)
    {
      hide Rely, WholeRecords, Misframes, DrainOutcome, Counted;
      Interfere();
      KernelsRanFacts(old(memories), old(histories), memories, histories);
      head, seen, seenHs := memories[i].head, memories, histories;
      Interfere();
      KernelsRanFacts(seen, seenHs, memories, histories);
      if old(Tracked()) {
        DrainErrorCaused(old(memories), old(histories), seen, seenHs, memories, histories, decoded, i, target, samples, lost);
      }
    }

    /** drain: takes every record up to a head snapshot and only then gives the space back. */
    method Drain(i: nat) returns (error: Option<RecordError>, ghost seen: Memory)
      requires Valid() && !stopped && i < |memories|
      modifies this`memories, this`histories, this`samples, this`lost, this`decoded, this`stopRequested, this`atStop
      ensures Valid() && |memories| == |old(memories)|
      // what the snapshot found decides what is collected and how the drain ends
      ensures Mapped(seen) && Rely(old(memories)[i], seen) && error == DrainOutcome(seen).error
      ensures samples == old(samples) + TargetSamples(DrainOutcome(seen).records, target)
      ensures lost == AddLost(old(lost), DrainOutcome(seen).records)
      // only a whole drain moves data_tail, to the head it saw
      ensures memories[i].tail == if error == None then seen.head else old(memories)[i].tail
      ensures error == None && old(Tracked()) ==> Tracked() && |old(histories)[i].stream| <= histories[i].consumed
      // the error is the one of what the kernel has published, and whole records have none
      ensures error.Some? && old(Tracked()) ==> Misframes(histories[i].stream, |memories[i].data|, error.value)
      ensures faithful && old(Tracked()) ==> error == None
      ensures forall j :: 0 <= j < |memories| ==> old(histories)[j].consumed <= histories[j].consumed
      ensures forall j :: 0 <= j < |memories| ==> |old(histories)[j].stream| <= |histories[j].stream|
      ensures old(stopRequested) ==> stopRequested && atStop == old(atStop)
    {
      hide WholeRecords, Misframes;
      hide Frame, Chunks, Agrees, DrainOutcome, TargetSamples, AddLost, Rely, KernelsRan, Counted, Add64;
      hide Snapshot, DividesCounter;
      var head;
      ghost var seenMs, seenHs;
      head, seenMs, seenHs := LoadHead(i);
      seen := seenMs[i];
      if Sub64(head, memories[i].tail) > |memories[i].data| {
        DrainOverruns(seen);
        NothingTaken(samples, lost, target);
        return Some(BufferOverrun), seen;
      }
      ghost var ms, hs := memories, histories;
      ghost var taken;
      error, taken := TakeRecords(i, seen, head);
      KernelsRanFacts(ms, hs, memories, histories);
      KernelsRanTransitive(seenMs, seenHs, ms, hs, memories, histories);
      MisframesStays(ms, hs, memories, histories, i, error);
      if error == None {
        if old(Tracked()) {
          DrainKeepsCount(old(memories), old(histories), seenMs, seenHs, memories, histories, decoded, i,
                          target, old(samples), old(lost));
        }
        memories := memories[i := Release(memories[i], head)];
        histories := histories[i := Released(histories[i], Pending(seen))];
        decoded := decoded[i := decoded[i] + taken];
      }
    }

    /** The kernel runs, and nothing is miscounted. */
    method Yield()
      requires Valid()
      modifies this`memories, this`histories, this`stopRequested, this`atStop
      ensures Valid() && |memories| == |old(memories)|
      ensures old(Tracked()) ==> Tracked()
      ensures forall j :: 0 <= j < |memories| ==> |old(histories)[j].stream| <= |histories[j].stream|
      ensures old(stopRequested) ==> stopRequested && atStop == old(atStop)
    {
      hide KernelsRan, Counted, WholeRecords, InTimeOrder;
      Interfere();
      KernelsRanFacts(old(memories), old(histories), memories, histories);
      if old(Tracked()) {
        KernelKeepsCount(old(memories), old(histories), memories, histories, decoded, target, samples, lost);
      }
    }

    /** A drain as the worker's loop sees it. */
    method DrainRing(i: nat) returns (failed: Option<Failure>)
      requires Valid() && !stopped && i < |memories|
      modifies this`memories, this`histories, this`samples, this`lost, this`decoded, this`stopRequested, this`atStop
      ensures Valid() && |memories| == |old(memories)|
      ensures failed == None && old(Tracked()) ==> Tracked()
      ensures old(stopRequested) ==> stopRequested && atStop == old(atStop)
      ensures forall j :: 0 <= j < |memories| ==>
                old(histories)[j].consumed <= histories[j].consumed && |old(histories)[j].stream| <= |histories[j].stream|
      ensures failed == None && old(Tracked()) ==> |old(histories)[i].stream| <= histories[i].consumed
      ensures failed == None && old(Tracked()) && old(stopRequested) ==> atStop[i] <= histories[i].consumed
      ensures failed.Some? ==> failed.value.BadRecord? && (old(Tracked()) ==> Misread(failed.value.error, memories, histories))
      ensures faithful && old(Tracked()) ==> failed == None
    {
      hide DrainOutcome, Rely, TargetSamples, AddLost, Counted, Misframes, WholeRecords;
      var error, _ := Drain(i);
      failed := if error == None then None else Some(BadRecord(error.value));
    }

    /** What one successful poll leads to: every ring that has something is drained of all it had
        published by then. A descriptor that hung up is drained and then
        disabled, so that it cannot keep poll spinning. */
    method Scan(events: seq<Ready>, enabled: seq<bool>) returns (failed: Option<Failure>, enabled': seq<bool>)
      requires Valid() && !stopped && |enabled| == |memories|
      modifies this`memories, this`histories, this`samples, this`lost, this`decoded, this`stopRequested, this`atStop
      ensures Valid() && |memories| == |old(memories)| == |enabled'|
      ensures failed == None && old(Tracked()) ==> Tracked()
      ensures forall j :: 0 <= j < |memories| ==> |old(histories)[j].stream| <= |histories[j].stream|
      ensures failed == None ==> forall i :: 0 <= i < |enabled| ==>
                !Revents(events, enabled, i).broken && enabled'[i] == (enabled[i] && !Revents(events, enabled, i).hungUp)
      ensures failed == None && old(Tracked()) ==> forall i :: 0 <= i < |enabled| ==>
                Wants(Revents(events, enabled, i)) ==> |old(histories)[i].stream| <= histories[i].consumed
      ensures failed == Some(DescriptorFailed) ==> exists i :: 0 <= i < |enabled| && Revents(events, enabled, i).broken
      ensures failed.Some? && failed != Some(DescriptorFailed) ==>
                failed.value.BadRecord? && (old(Tracked()) ==> Misread(failed.value.error, memories, histories))
      ensures faithful && old(Tracked()) && failed.Some? ==> failed == Some(DescriptorFailed)
    {
      hide Counted, Misframes, WholeRecords;
      enabled' := enabled;
      for i := 0 to |memories|
        invariant Valid() && |memories| == |old(memories)| == |enabled'|
        invariant old(Tracked()) ==> Tracked()
        invariant forall j :: 0 <= j < |memories| ==> |old(histories)[j].stream| <= |histories[j].stream|
        invariant old(Tracked()) ==> forall j :: 0 <= j < i ==>
                    Wants(Revents(events, enabled, j)) ==> |old(histories)[j].stream| <= histories[j].consumed
        invariant forall j :: i <= j < |enabled| ==> enabled'[j] == enabled[j]
        invariant forall j :: 0 <= j < i ==>
                    !Revents(events, enabled, j).broken && enabled'[j] == (enabled[j] && !Revents(events, enabled, j).hungUp)
      {
        var ready := Revents(events, enabled, i);
        if ready.broken {
          return Some(DescriptorFailed), enabled';
        }
        if Wants(ready) {
          failed := DrainRing(i);
          if failed != None {
            return failed, enabled';
          }
        }
        if ready.hungUp {
          enabled' := enabled'[i := false];
        }
      }
      failed := None;
    }

    /** The drains after the loop. */
    method DrainAll() returns (failed: Option<Failure>)
      requires Valid() && !stopped && stopRequested
      modifies this`memories, this`histories, this`samples, this`lost, this`decoded, this`stopRequested, this`atStop
      ensures Valid() && |memories| == |old(memories)|
      ensures failed == None && old(Tracked()) ==> Tracked() && Complete()
      ensures failed.Some? ==> failed.value.BadRecord? && (old(Tracked()) ==> Misread(failed.value.error, memories, histories))
      ensures faithful && old(Tracked()) ==> failed == None
    {
      hide Counted, Misframes, WholeRecords;
      for i := 0 to |memories|
        invariant Valid() && |memories| == |old(memories)| && stopRequested && atStop == old(atStop)
        invariant old(Tracked()) ==> Tracked()
        invariant old(Tracked()) ==> forall j :: 0 <= j < i ==> atStop[j] <= histories[j].consumed
      {
        failed := DrainRing(i);
        if failed != None {
          return failed;
        }
      }
      failed := None;
    }

    /** One turn of the poll loop: what the worker makes of call k. */
    method AnswerPoll(polls: seq<Poll>, k: nat, enabled: seq<bool>)
      returns (failed: Option<Failure>, woken: bool, enabled': seq<bool>, ghost turn: Turn)
      requires Valid() && !stopped && !stopRequested && |enabled| == |memories|
      requires k < |polls| && k <= Woken(polls) && (k < Woken(polls) <==> !(polls[k].Returned? && polls[k].wake))
      requires Polled(polls, k, enabled)
      modifies this`memories, this`histories, this`samples, this`lost, this`decoded, this`stopRequested, this`atStop,
        this`lastTurn
      ensures Valid() && |memories| == |old(memories)| == |enabled'| == |turn.published|
      ensures woken == (polls[k].Returned? && polls[k].wake)
      ensures k < |polls| - 1 && !woken ==> !stopRequested && !lastTurn
      ensures failed == None && old(Tracked()) ==> Tracked()
      ensures failed == None && !woken ==> !polls[k].PollFailed? && !Breaks(polls, k, |memories|)
      ensures failed == None && !woken ==> Polled(polls, k + 1, enabled')
      ensures failed == None && !woken && old(Tracked()) ==> Emptied(polls, k, turn)
      ensures failed.Some? ==> !woken
      ensures failed.Some? && (failed.value.BadRecord? ==> old(Tracked())) ==>
                Caused(failed.value, polls, memories, histories)
      ensures faithful && old(Tracked()) && failed.Some? ==> Troubled(polls, |memories|)
      ensures forall j :: 0 <= j < |memories| ==> |old(histories)[j].stream| <= turn.published[j] <= |histories[j].stream|
    {
      hide Counted, Misframes, WholeRecords, InTimeOrder, Breaks, Misread, Emptied, Reports, StillPolled, Revents, Wants;
      hide Woken;
      NeverBreaks(polls, k, |memories|);
      forall j | 0 <= j < |enabled| {
        PolledNext(polls, k, j);
      }
      woken := polls[k].Returned? && polls[k].wake;
      lastTurn := k == |polls| - 1 || woken;
      Yield();
      failed, enabled' := None, enabled;
      ghost var published := Lengths(histories);
      match polls[k] {
        case Interrupted =>
        case PollFailed =>
          failed := Some(PollError);
        case Returned(wake, events) =>
          // the eventfd is written only after the stop was requested
          if !wake {
            ScanSees(polls, k, enabled);
            failed, enabled' := Scan(events, enabled);
          }
      }
      turn := Turn(published, Consumed(histories));
      NothingReported(polls, k, turn);
      if old(Tracked()) && polls[k].Returned? && failed == None && !woken {
        EmptiedIf(polls, k, turn, enabled);
      }
    }

    /** The worker: poll until the stop is requested, then drain once more. `polls` is what its calls of
        poll do, up to the one after which it sees the stop request. Every turn of the loop before
        the wake-up is recorded. */
    method Collect(polls: seq<Poll>) returns (failed: Option<Failure>, ghost turns: seq<Turn>)
      requires Valid() && !stopped && !stopRequested
      modifies this`memories, this`histories, this`samples, this`lost, this`decoded, this`stopRequested, this`atStop,
        this`lastTurn
      ensures Valid() && |memories| == |old(memories)|
      ensures failed == None && old(Tracked()) ==> Tracked() && Complete()
      ensures failed.Some? && (failed.value.BadRecord? ==> old(Tracked())) ==> Caused(failed.value, polls, memories, histories)
      // a worker ends well only if there was no trouble, and always if the kernel publishes whole records
      ensures failed == None ==> !Troubled(polls, |memories|)
      ensures faithful && old(Tracked()) && !Troubled(polls, |memories|) ==> failed == None
      // it answers every call of poll before the wake-up, and empties what is reported before it polls again
      ensures |turns| <= Woken(polls) && (failed == None ==> |turns| == Woken(polls))
      ensures Recorded(polls, turns, old(Lengths(histories)), old(Tracked()))
    {
      hide Counted, Misframes, WholeRecords, InTimeOrder, Breaks, Misread, Emptied, Reports, StillPolled, Recorded;
      hide Polled, Quiet, Troubled, Woken;
      NothingRecorded(polls, old(Lengths(histories)), old(Tracked()));
      var enabled := seq(|memories|, i => true);
      AllPolled(polls, enabled);
      var i := 0;
      turns := [];
      lastTurn := |polls| == 0;
      Yield();
      while !stopRequested && i < |polls|
        invariant Valid() && |memories| == |old(memories)| == |enabled|
        invariant 0 <= i <= |polls| && |turns| == i && (i < |polls| ==> !lastTurn)
        invariant i <= Woken(polls)
        invariant Polled(polls, i, enabled) && Quiet(polls, i, |memories|)
        invariant old(Tracked()) ==> Tracked()
        invariant forall j :: 0 <= j < |memories| ==> |old(histories)[j].stream| <= |histories[j].stream|
        invariant Recorded(polls, turns, old(Lengths(histories)), old(Tracked()))
      {
        NextWoken(polls, i);
        QuietMore(polls, i, |memories|);
        var woken;
        ghost var turn;
        failed, woken, enabled, turn := AnswerPoll(polls, i, enabled);
        if failed.Some? {
          return;
        }
        if woken {
          break;
        }
        RecordedMore(polls, turns, turn, old(Lengths(histories)), old(Tracked()));
        i, turns := i + 1, turns + [turn];
        Yield();
      }
      QuietMeans(polls, |memories|);
      lastTurn := true;
      RequestStop();
      failed := DrainAll();
    }

    // ----- the main thread

    method Start(maskFails: bool, threadFails: bool) returns (r: Result<(), StartError>)
      requires AtRest()
      modifies this`started
      ensures AtRest()
      ensures r.Ok? <==> !old(started) && !stopped && !maskFails && !threadFails
      ensures started == (old(started) || r.Ok?)
    {
      if started || stopped {
        return Err(StartedTwice);
      }
      if maskFails {
        return Err(SignalMask);
      }
      if threadFails {
        return Err(ThreadCreation);
      }
      started := true;
      r := Ok(());
    }

    /** stop: requests the stop, joins the worker and sorts. The worker's whole run, from
        start to join, is executed here; the request is one of the events of that run. */
    method Stop(polls: seq<Poll>, wakeFails: bool) returns (r: Result<(), Failure>)
      requires AtRest()
      modifies this
      ensures AtRest() && stopped && started == old(started) && |memories| == |old(memories)|
      ensures r == if failure == None then Ok(()) else Err(failure.value)
      ensures old(stopped) ==> unchanged(this)
      ensures !old(started) ==> failure == old(failure) && memories == old(memories) && lost == old(lost)
      ensures !old(started) ==> multiset(samples) == multiset(old(samples))
      ensures !old(stopped) && old(started) && wakeFails ==> r.Err?
      // a failure has its cause
      ensures !old(stopped) && r.Err? ==> old(started)
      ensures !old(stopped) && old(started) && Troubled(polls, |memories|) ==> r.Err?
      ensures !old(stopped) && r.Err? && (r.error.BadRecord? ==> old(Tracked())) ==>
                if r.error == WakeError then wakeFails else Caused(r.error, polls, memories, histories)
      // and without a cause, on a kernel that publishes whole records, the stop succeeds
      ensures !old(stopped) && (old(started) ==> Succeeds(polls, wakeFails) && old(Tracked())) ==> r.Ok?
      ensures r.Ok? && old(OnTrack()) ==> OnTrack()
    {
      hide Counted, Troubled, WholeRecords, InTimeOrder, Misframes, Woken, Breaks, Misread, Emptied;
      var wakeFailed := false;
      if !stopped {
        if started {
          var failed;
          ghost var turns;
          failed, turns := Collect(polls);
          failure := failed;
          wakeFailed := wakeFails;
        }
        stopped := true;
        ghost var collected := samples;
        samples := SortedByTime(samples);
        Rearranged(memories, histories, decoded, target, collected, samples, lost);
      }
      if wakeFailed && failure == None {
        failure := Some(WakeError);
      }
      r := if failure == None then Ok(()) else Err(failure.value);
    }

    /** What a caller gets is in the order of time, and, of every record handed back to the kernel, exactly
        the target's samples. */
    method Samples() returns (r: Result<seq<CpuSample>, ReadError>)
      requires Valid()
      ensures r.Ok? <==> stopped && failure == None
      ensures r.Err? ==> r.error == if stopped then Collection(failure.value) else NotStopped
      ensures r.Ok? ==> r.value == samples && InTimeOrder(r.value)
      ensures r.Ok? && Tracked() ==> multiset(r.value) == AllSamples(decoded, target)
    {
      if !stopped {
        return Err(NotStopped);
      }
      r := if failure == None then Ok(samples) else Err(Collection(failure.value));
    }

    /** What a caller gets is the sum, modulo 2^64, of the losses in every record handed back to the kernel. */
    method LostSamples() returns (r: Result<u64, ReadError>)
      requires Valid()
      ensures r.Ok? <==> stopped && failure == None
      ensures r.Err? ==> r.error == if stopped then Collection(failure.value) else NotStopped
      ensures r.Ok? ==> r.value == lost
      ensures r.Ok? && Tracked() ==> r.value == AllLost(decoded) % TWO64
    {
      if !stopped {
        return Err(NotStopped);
      }
      ghost var all := AllLost(decoded);
      WrapIsMod(all);
      r := if failure == None then Ok(lost) else Err(Collection(failure.value));
    }

    /** The destructor: stops, whatever that reports, and only then closes the eventfd. */
    method Destroy(polls: seq<Poll>, wakeFails: bool, ghost log: seq<Event>) returns (ghost log': seq<Event>)
      requires AtRest()
      requires Replay(log).Some? && (wake.fd.Some? ==> Note(Replay(log).value, Closed(wake.fd.value)).Some?)
      modifies this, wake
      ensures AtRest() && stopped && started == old(started) && wake.fd == None
      ensures old(stopped) ==> unchanged(this)
      ensures Replay(log') == if old(wake.fd).Some? then Note(Replay(log).value, Closed(old(wake.fd).value)) else Replay(log)
    {
      var _ := Stop(polls, wakeFails);
      log' := wake.Destroy(log);
    }
  }

  /** One ring's published records, and how many of them were published before the stop request. */
  datatype Stream = Stream(records: seq<Record>, beforeStop: nat)

  ghost predicate PublishedBy(c: Collector, i: nat, p: Stream)
    requires c.Valid() && c.stopRequested && i < |c.memories|
    reads c
  {
    && FitRing(p.records, |c.memories[i].data|)
    && c.histories[i].stream == EncodeAll(p.records)
    && p.beforeStop <= |p.records|
    && |EncodeAll(p.records[..p.beforeStop])| <= c.atStop[i]
  }

  /** What Stop establishes when it returns normally, in terms of the kernel's records: of each ring,
      a prefix that reaches at least as far as everything published before the stop request has been
      decoded, each record once and in order; the samples are exactly the target's among all of
      them, and the count of losses is their sum modulo 2^64. */
  lemma StoppedIsComplete(c: Collector, ps: seq<Stream>) returns (ks: seq<nat>)
    requires c.Valid() && c.Tracked() && c.Complete()
    requires |ps| == |c.memories| && forall i :: 0 <= i < |ps| ==> PublishedBy(c, i, ps[i])
    ensures |ks| == |ps|
    ensures forall i :: 0 <= i < |ps| ==>
      ps[i].beforeStop <= ks[i] <= |ps[i].records| && c.decoded[i] == Meanings(ps[i].records[..ks[i]])
    ensures var taken := TakenFrom(ps, ks);
      && (forall s :: multiset(c.samples)[s] == if s.processId == c.target then Occurrences(taken, s) else 0)
      && c.lost == Losses(taken) % TWO64
  {
    WrapIsMod(AllLost(c.decoded));
    ks := RingsComplete(c, ps, |ps|);
    var taken := TakenFrom(ps, ks);
    AllLostIs(taken, c.decoded);
    forall s: CpuSample
      ensures AllSamples(c.decoded, c.target)[s] == if s.processId == c.target then Occurrences(taken, s) else 0
    {
      AllSamplesAre(taken, c.decoded, c.target, s);
    }
  }

  /** What was taken of each ring. */
  ghost function TakenFrom(ps: seq<Stream>, ks: seq<nat>): seq<seq<Record>>
    requires |ks| == |ps| && forall i :: 0 <= i < |ps| ==> ks[i] <= |ps[i].records|
  {
    seq(|ps|, i requires 0 <= i < |ps| => ps[i].records[..ks[i]])
  }

  /** On a kernel that publishes whole records there are such records, and exactly those of the first
      `beforeStop` were published before the stop was requested. */
  lemma StreamsAreRecords(c: Collector) returns (ps: seq<Stream>)
    requires c.Valid() && c.faithful && c.stopRequested
    ensures |ps| == |c.memories|
    ensures forall i :: 0 <= i < |ps| ==> PublishedBy(c, i, ps[i]) && |EncodeAll(ps[i].records[..ps[i].beforeStop])| == c.atStop[i]
  {
    ps := StreamsFrom(c, |c.memories|);
  }

  lemma {:induction false} StreamsFrom(c: Collector, n: nat) returns (ps: seq<Stream>)
    requires c.Valid() && c.faithful && c.stopRequested && n <= |c.memories|
    ensures |ps| == n
    ensures forall i :: 0 <= i < n ==> PublishedBy(c, i, ps[i]) && |EncodeAll(ps[i].records[..ps[i].beforeStop])| == c.atStop[i]
  {
    hide EncodeAll, FitRing, Frame;
    if n == 0 {
      ps := [];
    } else {
      ps := StreamsFrom(c, n - 1);
      var h, size := c.histories[n - 1], |c.memories[n - 1].data|;
      var rs := RecordsOf(h.stream, size);
      var k := CleanPrefixIsWhole(rs, c.atStop[n - 1], size);
      ps := ps + [Stream(rs, k)];
    }
  }

  lemma {:induction false} RingsComplete(c: Collector, ps: seq<Stream>, n: nat) returns (ks: seq<nat>)
    requires c.Valid() && c.Tracked() && c.Complete()
    requires n <= |ps| == |c.memories| && forall i :: 0 <= i < |ps| ==> PublishedBy(c, i, ps[i])
    ensures |ks| == n
    ensures forall i :: 0 <= i < n ==>
      ps[i].beforeStop <= ks[i] <= |ps[i].records| && c.decoded[i] == Meanings(ps[i].records[..ks[i]])
  {
    hide Meanings, PublishedBy, Counted;
    if n == 0 {
      ks := [];
    } else {
      ks := RingsComplete(c, ps, n - 1);
      var k := RingComplete(c, n - 1, ps[n - 1]);
      ks := ks + [k];
    }
  }

  lemma RingComplete(c: Collector, i: nat, p: Stream) returns (k: nat)
    requires c.Valid() && c.Tracked() && c.Complete() && i < |c.memories| && PublishedBy(c, i, p)
    ensures p.beforeStop <= k <= |p.records| && c.decoded[i] == Meanings(p.records[..k])
  {
    hide RingOk, EncodeAll, Meanings, FitRing;
    k := WholeRecordsDelivered(c.memories[i], c.histories[i], c.decoded[i], p.records, p.beforeStop);
  }
}
