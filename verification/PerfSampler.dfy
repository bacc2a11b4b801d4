/** PerfSampler of src/perf/perf_sampler.cpp: building the rings, the two layers of starting
    and stopping, latched failures and the release of every resource. */
module PerfSampler {
  import opened Delivery
  import opened PageSizing
  import opened PerfRecord
  import opened Resources
  import opened Results
  import opened RingProtocol
  import opened SampleCollector
  import opened Words

  // ----- what a sampler holds

  /** What the log leaves held: what the rings own and the wake-up descriptor, nothing else; only
      rings are enabled, and none of them if all have been disabled. */
  ghost predicate Holding(log: seq<Event>, owned: seq<Ownership>, wake: Option<nat>, worker: Worker, disabled: bool) {
    var end := Replay(log);
    && end.Some?
    && end.value.open == FdsOf(owned) + One(wake)
    && end.value.mapped == MappingsOf(owned)
    && end.value.worker == worker
    && (forall fd :: fd in end.value.enabled ==> fd in FdsOf(owned))
    && (disabled ==> end.value.enabled == {})
  }

  /** While it is being constructed: only what the finished rings own is held. */
  ghost predicate OnlyRings(log: seq<Event>, owned: seq<Ownership>) {
    Replay(log) == Some(Held(FdsOf(owned), MappingsOf(owned), {}, Idle))
  }

  lemma WorkerMoves(log: seq<Event>, owned: seq<Ownership>, wake: Option<nat>, disabled: bool)
    ensures Holding(log, owned, wake, Idle, disabled) ==>
              Holding(log + [WorkerStarted], owned, wake, Running, disabled)
    ensures Holding(log, owned, wake, Running, disabled) ==>
              Holding(log + [WorkerJoined], owned, wake, Joined, disabled)
  {
    ReplayMore(log, WorkerStarted);
    ReplayMore(log, WorkerJoined);
  }

  /** The first n rings have been enabled and not disabled since. */
  ghost predicate EnabledTo(log: seq<Event>, owned: seq<Ownership>, n: nat)
    requires n <= |owned|
  {
    Replay(log).Some? && forall i :: 0 <= i < n ==> owned[i].fd.Some? && owned[i].fd.value in Replay(log).value.enabled
  }

  lemma OneEnabled(log: seq<Event>, owned: seq<Ownership>, wake: Option<nat>, i: nat)
    requires i < |owned| && owned[i].fd.Some? && Holding(log, owned, wake, Running, false)
    ensures Holding(log + [Enabled(owned[i].fd.value)], owned, wake, Running, false)
    ensures EnabledTo(log, owned, i) ==> EnabledTo(log + [Enabled(owned[i].fd.value)], owned, i + 1)
  {
    ReplayMore(log, Enabled(owned[i].fd.value));
    OwnedWithin(owned, i);
    assert owned[i].fd.value in One(owned[i].fd);
  }

  /** Every ring is open and mapped. */
  predicate Whole(owned: seq<Ownership>) {
    forall i :: 0 <= i < |owned| ==> owned[i].fd.Some? && owned[i].mapping.Some?
  }

  /** Rings of a sampler: each owns a descriptor and a mapping. */
  ghost predicate Built(rings: seq<PerfRing>, owned: seq<Ownership>)
    reads rings
  {
    Distinct(rings) && Owning(rings, owned) && Whole(owned)
  }

  lemma BuiltMore(rings: seq<PerfRing>, owned: seq<Ownership>, ring: PerfRing)
    requires Built(rings, owned) && ring !in rings && ring.fd.Some? && ring.mapping.Some?
    ensures Built(rings + [ring], owned + [Owned(ring)])
  {
  }

  lemma TakenBack(m: multiset<nat>, more: multiset<nat>)
    ensures m + more - more == m && more <= m + more
  {
  }

  lemma NothingBuilt()
    ensures Built([], []) && OnlyRings([], [])
  {
  }

  // ----- construction

  /** What opening and mapping the ring of one CPU does. */
  datatype Opening =
    | OpenFails
    | MapFails(fd: nat)
    | Maps(fd: nat, address: nat, dataOffset: nat, dataSize: nat, memory: Memory)

  /** The ring is mapped with the layout that the constructor expects. */
  predicate WellMapped(o: Opening, pageSize: int, dataSize: int) {
    o.Maps? && o.dataOffset == pageSize && o.dataSize == dataSize
  }

  datatype CreateError =
    | BadTarget
    | BadCpus
    | BadSizing
    | NoPageSize
    | TooLarge
    | OpenError
    | MapError
    | BadLayout
    | NoEventFd

  /** What is wrong with a ring, first things first. */
  function Problem(o: Opening, pageSize: int, dataSize: int): (r: Option<CreateError>)
    ensures r == None <==> WellMapped(o, pageSize, dataSize)
  {
    match o
    case OpenFails => Some(OpenError)
    case MapFails(_) => Some(MapError)
    case Maps(_, _, _, _, _) => if WellMapped(o, pageSize, dataSize) then None else Some(BadLayout)
  }

  /** The layout must be the page that precedes the data, and the data asked for. */
  predicate RingFaults(o: Opening, pageSize: int, dataSize: int, error: CreateError) {
    match error
    case OpenError => o.OpenFails?
    case MapError => o.MapFails?
    case BadLayout => o.Maps? && !(o.dataOffset == pageSize && o.dataSize == dataSize)
    case _ => false
  }

  lemma ProblemIs(o: Opening, pageSize: int, dataSize: int)
    ensures var problem := Problem(o, pageSize, dataSize); problem.Some? ==> RingFaults(o, pageSize, dataSize, problem.value)
  {
  }

  /** The first ring that cannot be had decides the error; if there is none it is the eventfd's. */
  ghost predicate AcquiringFails(openings: seq<Opening>, pageSize: int, dataSize: int, eventFd: Option<nat>, error: CreateError) {
    if error == NoEventFd then
      eventFd == None && forall o :: o in openings ==> o.Maps? && o.dataOffset == pageSize && o.dataSize == dataSize
    else
      exists k :: 0 <= k < |openings| && RingFaults(openings[k], pageSize, dataSize, error)
        && forall j :: 0 <= j < k ==> openings[j].Maps? && openings[j].dataOffset == pageSize && openings[j].dataSize == dataSize
  }

  ghost predicate DistinctNonnegative(cpus: seq<int>) {
    (forall i :: 0 <= i < |cpus| ==> cpus[i] >= 0) && forall i, j :: 0 <= i < j < |cpus| ==> cpus[i] != cpus[j]
  }

  method CheckCpus(cpus: seq<int>) returns (ok: bool)
    ensures ok <==> DistinctNonnegative(cpus)
  {
    var unique: set<int> := {};
    for i := 0 to |cpus|
      invariant forall c :: c in unique <==> c in cpus[..i]
      invariant DistinctNonnegative(cpus[..i])
    {
      assert forall c :: c in cpus[..i + 1] <==> c in cpus[..i] || c == cpus[i];
      if cpus[i] < 0 || cpus[i] in unique {
        return false;
      }
      unique := unique + {cpus[i]};
    }
    assert cpus[..|cpus|] == cpus;
    ok := true;
  }

  /** The check on the number of pages keeps the page in front of the data from overflowing, not just the data. */
  lemma SizeFits(pageSize: int, dataPages: u64)
    requires pageSize > 0
    ensures dataPages <= (TWO64 - 1) / pageSize - 1 <==> pageSize + pageSize * dataPages < TWO64
  {
    var q := (TWO64 - 1) / pageSize;
    if dataPages + 1 <= q {
      MulMono(pageSize, dataPages + 1, q);
    } else {
      MulMono(pageSize, q + 1, dataPages + 1);
    }
  }

  lemma MulMono(a: nat, b: nat, c: nat)
    requires b <= c
    ensures a * b <= a * c
  {
  }

  /** One turn of the loop over the CPUs, up to where the ring would join the others. The ring it
      leaves owns exactly what was acquired, whether or not it could be finished. */
  method OpenRing(o: Opening, pageSize: nat, dataSize: nat, ghost log: seq<Event>)
      returns (ring: PerfRing, error: Option<CreateError>, ghost log': seq<Event>)
    requires Replay(log).Some?
    ensures fresh(ring)
    ensures var h := Replay(log).value;
      Replay(log') == Some(h.(open := h.open + One(ring.fd), mapped := h.mapped + One(ring.mapping)))
    ensures error == Problem(o, pageSize, dataSize)
    ensures error == None ==> ring.fd.Some? && ring.mapping.Some?
  {
    hide Replay, Note, One;
    var fd := if o.OpenFails? then None else Some(o.fd);
    OpenedOne(log, fd);
    log' := if fd.Some? then log + [Opened(fd.value)] else log;
    NoMapping(Replay(log').value);
    ring := new PerfRing();
    var made := new UniqueFd(fd);
    log' := ring.AssignDescriptor(made, log');
    log' := made.Destroy(log');
    if ring.fd == None {
      return ring, Some(OpenError), log';
    }
    if o.MapFails? {
      return ring, Some(MapError), log';
    }
    MappedOne(log', o.address);
    log' := log' + [MappedRing(o.address)];
    ring.mapping := Some(o.address);
    error := if o.dataOffset != pageSize || o.dataSize != dataSize then Some(BadLayout) else None;
  }

  lemma OpenedOne(log: seq<Event>, fd: Option<nat>)
    requires Replay(log).Some?
    ensures var h := Replay(log).value;
      Replay(if fd.Some? then log + [Opened(fd.value)] else log) == Some(h.(open := h.open + One(fd)))
  {
    if fd.Some? {
      ReplayMore(log, Opened(fd.value));
    } else {
      var open := Replay(log).value.open;
      assert open + multiset{} == open;
    }
  }

  lemma MappedOne(log: seq<Event>, address: nat)
    requires Replay(log).Some?
    ensures var h := Replay(log).value;
      Replay(log + [MappedRing(address)]) == Some(h.(mapped := h.mapped + One(Some(address))))
  {
    ReplayMore(log, MappedRing(address));
  }

  lemma NoMapping(h: Held)
    ensures h.(mapped := h.mapped + One(None)) == h
  {
    assert h.mapped + multiset{} == h.mapped;
  }

  /** One turn of the loop over the CPUs. A ring that could not be finished is destroyed at once;
      a finished one joins the others, which belong to the sampler. */
  method AddRing(o: Opening, pageSize: nat, dataSize: nat, rings: seq<PerfRing>, ghost owned: seq<Ownership>, ghost log: seq<Event>)
      returns (error: Option<CreateError>, rings': seq<PerfRing>, ghost owned': seq<Ownership>, ghost log': seq<Event>)
    requires Built(rings, owned) && OnlyRings(log, owned)
    ensures Built(rings', owned') && OnlyRings(log', owned')
    ensures |rings'| == |rings| + (if error == None then 1 else 0)
    ensures rings <= rings' && forall i :: |rings| <= i < |rings'| ==> fresh(rings'[i])
    ensures error == Problem(o, pageSize, dataSize)
  {
    hide Replay, FdsOf, MappingsOf, Note, Built, One;
    var ring;
    ring, error, log' := OpenRing(o, pageSize, dataSize, log);
    rings', owned' := rings, owned;
    if error == None {
      OwnershipMore(owned, Owned(ring));
      BuiltMore(rings, owned, ring);
      rings', owned' := rings + [ring], owned + [Owned(ring)];
    } else {
      TakenBack(FdsOf(owned), One(ring.fd));
      TakenBack(MappingsOf(owned), One(ring.mapping));
      log' := ring.Destroy(log');
    }
  }

  ghost predicate TakenFrom(memories: seq<Memory>, openings: seq<Opening>) {
    && |memories| == |openings|
    && forall i :: 0 <= i < |openings| ==> openings[i].Maps? && memories[i] == openings[i].memory
  }

  /** The loop over the CPUs. */
  method OpenRings(openings: seq<Opening>, pageSize: nat, dataSize: nat)
      returns (error: Option<CreateError>, rings: seq<PerfRing>, memories: seq<Memory>,
               ghost owned: seq<Ownership>, ghost log: seq<Event>)
    ensures fresh(rings) && Built(rings, owned) && OnlyRings(log, owned)
    ensures |rings| <= |openings| && forall i :: 0 <= i < |rings| ==> WellMapped(openings[i], pageSize, dataSize)
    ensures error == if |rings| < |openings| then Problem(openings[|rings|], pageSize, dataSize) else None
    ensures error == None ==> |rings| == |openings| && TakenFrom(memories, openings)
  {
    hide Built, OnlyRings, Problem;
    rings, memories, owned, log := [], [], [], [];
    NothingBuilt();
    for i := 0 to |openings|
      invariant |rings| == i && fresh(rings)
      invariant Built(rings, owned) && OnlyRings(log, owned)
      invariant forall j :: 0 <= j < i ==> WellMapped(openings[j], pageSize, dataSize)
      invariant TakenFrom(memories, openings[..i])
    {
      error, rings, owned, log := AddRing(openings[i], pageSize, dataSize, rings, owned, log);
      if error.Some? {
        return;
      }
      memories := memories + [openings[i].memory];
      assert openings[..i + 1] == openings[..i] + [openings[i]];
    }
    assert openings[..|openings|] == openings;
    error := None;
  }

  /** What ~Impl does when a constructor gives up after some rings are finished. */
  method Abandon(rings: seq<PerfRing>, ghost owned: seq<Ownership>, ghost log: seq<Event>) returns (ghost log': seq<Event>)
    requires Built(rings, owned) && OnlyRings(log, owned)
    modifies rings
    ensures Clean(log')
  {
    hide FdsOf, MappingsOf, Note;
    NothingElse(owned);
    var answers: seq<bool> := *;
    var refused;
    refused, log' := DisableAll(rings, answers, owned, log);
    log' := DestroyAll(rings, owned, log', multiset{});
  }

  lemma NothingElse(owned: seq<Ownership>)
    ensures FdsOf(owned) + multiset{} == FdsOf(owned) && FdsOf(owned) + One(None) == FdsOf(owned)
  {
  }

  lemma NotTheEventFd(o: Opening, pageSize: int, dataSize: int)
    ensures !RingFaults(o, pageSize, dataSize, NoEventFd)
  {
  }

  /** The part of the constructor that acquires: the rings, then the collector with its eventfd. */
  method Build(target: u32, openings: seq<Opening>, pageSize: nat, dataSize: nat, eventFd: Option<nat>, faithful: bool)
      returns (r: Result<Sampler, CreateError>, ghost log: seq<Event>)
    requires 0 < dataSize < TWO64 && DividesCounter(dataSize)
    requires forall o :: o in openings && o.Maps? ==> |o.memory.data| == dataSize
    requires faithful ==> WholeInitially(openings)
    ensures r.Ok? ==>
              && fresh(r.value) && fresh(r.value.collector) && fresh(r.value.collector.wake)
              && fresh(r.value.rings)
              && r.value.Valid() && r.value.log == log && !r.value.started && !r.value.stopped
              && |r.value.rings| == |openings| && TakenFrom(r.value.collector.memories, openings)
              && r.value.collector.faithful == faithful
    ensures r.Ok? && (forall o :: o in openings && o.Maps? ==> Pending(o.memory) <= |o.memory.data|) ==> r.value.collector.OnTrack()
    ensures r.Err? ==> Clean(log)
    ensures r.Ok? <==> (forall o :: o in openings ==> WellMapped(o, pageSize, dataSize)) && eventFd.Some?
    ensures r.Err? ==> AcquiringFails(openings, pageSize, dataSize, eventFd, r.error)
  {
    hide Built, OnlyRings, Holding, Clean, HoldsWhole, WholeInitially, Problem, RingFaults;
    var failed, rings, memories;
    ghost var owned;
    failed, rings, memories, owned, log := OpenRings(openings, pageSize, dataSize);
    if failed.Some? {
      ProblemIs(openings[|rings|], pageSize, dataSize);
      NotTheEventFd(openings[|rings|], pageSize, dataSize);
      log := Abandon(rings, owned, log);
      return Err(failed.value), log;
    }
    var wake := new UniqueFd(eventFd);
    if eventFd == None {
      log := Abandon(rings, owned, log);
      return Err(NoEventFd), log;
    }
    WakeOpened(log, owned, eventFd.value);
    log := log + [Opened(eventFd.value)];
    AllMapped(memories, openings, dataSize);
    var collector := new Collector(memories, target, wake, faithful);
    var sampler := new Sampler(rings, collector, owned, log);
    r := Ok(sampler);
  }

  /** Whatever the rings hold when they are mapped is whole records. */
  ghost predicate WholeInitially(openings: seq<Opening>) {
    forall o :: o in openings && o.Maps? && Mapped(o.memory) ==> HoldsWhole(o.memory)
  }

  lemma AllMapped(memories: seq<Memory>, openings: seq<Opening>, dataSize: nat)
    requires 0 < dataSize < TWO64 && DividesCounter(dataSize) && TakenFrom(memories, openings)
    requires forall o :: o in openings && o.Maps? ==> |o.memory.data| == dataSize
    ensures forall i :: 0 <= i < |memories| ==> Mapped(memories[i])
    ensures WholeInitially(openings) ==> forall i :: 0 <= i < |memories| ==> HoldsWhole(memories[i])
    ensures (forall o :: o in openings && o.Maps? ==> Pending(o.memory) <= |o.memory.data|) ==>
              forall i :: 0 <= i < |memories| ==> Pending(memories[i]) <= |memories[i].data|
  {
    hide HoldsWhole;
    forall i | 0 <= i < |memories|
      ensures memories[i] == openings[i].memory && openings[i] in openings && Mapped(memories[i])
    {
      assert openings[i] in openings;
    }
  }

  lemma WakeOpened(log: seq<Event>, owned: seq<Ownership>, fd: nat)
    requires OnlyRings(log, owned)
    ensures Holding(log + [Opened(fd)], owned, Some(fd), Idle, true)
  {
    ReplayMore(log, Opened(fd));
  }

  /** The constructor, as a function that may fail instead. `openings` says what the system
      does for each CPU, `eventFd` what eventfd returns; mmap maps as many bytes as it is asked for.
      `faithful` says whether the kernel will keep to whole records. */
  method Create(target: int, cpus: seq<int>, frequency: u64, dataPages: u64, pageSize: int,
                openings: seq<Opening>, eventFd: Option<nat>, faithful: bool)
      returns (r: Result<Sampler, CreateError>, ghost log: seq<Event>)
    requires pageSize > 0 ==> PowerOfTwo(pageSize)
    requires |openings| == |cpus| && target < TWO32
    requires forall o :: o in openings && o.Maps? ==> |o.memory.data| == pageSize * dataPages
    requires faithful ==> WholeInitially(openings)
    ensures r.Ok? ==>
              && fresh(r.value) && fresh(r.value.collector) && fresh(r.value.collector.wake)
              && fresh(r.value.rings)
              && r.value.Valid() && r.value.log == log && !r.value.started && !r.value.stopped
              && |r.value.rings| == |cpus| && TakenFrom(r.value.collector.memories, openings)
              && r.value.collector.faithful == faithful
    ensures r.Ok? && (forall o :: o in openings && o.Maps? ==> Pending(o.memory) <= |o.memory.data|) ==> r.value.collector.OnTrack()
    // a construction that fails has released everything it acquired
    ensures r.Err? ==> Clean(log)
    ensures r.Ok? <==>
            && target > 0 && cpus != [] && DistinctNonnegative(cpus)
            && frequency > 0 && dataPages > 0 && PowerOfTwo(dataPages)
            && pageSize > 0 && pageSize + pageSize * dataPages < TWO64
            && (forall o :: o in openings ==>
                  o.Maps? && o.dataOffset == pageSize && o.dataSize == pageSize * dataPages)
            && eventFd.Some?
    ensures r.Err? ==>
              if target <= 0 || cpus == [] then r.error == BadTarget
              else if !DistinctNonnegative(cpus) then r.error == BadCpus
              else if frequency == 0 || dataPages == 0 || !PowerOfTwo(dataPages) then r.error == BadSizing
              else if pageSize <= 0 then r.error == NoPageSize
              else if pageSize + pageSize * dataPages >= TWO64 then r.error == TooLarge
              else AcquiringFails(openings, pageSize, pageSize * dataPages, eventFd, r.error)
  {
    hide AcquiringFails;

    log := [];
    if target <= 0 || cpus == [] {
      return Err(BadTarget), log;
    }
    var cpusOk := CheckCpus(cpus);
    if !cpusOk {
      return Err(BadCpus), log;
    }
    if frequency == 0 || dataPages == 0 || BitAnd(dataPages, dataPages - 1) != 0 {
      if dataPages > 0 {
        BitTrick(dataPages);
      }
      return Err(BadSizing), log;
    }
    BitTrick(dataPages);
    if pageSize <= 0 {
      return Err(NoPageSize), log;
    }
    SizeFits(pageSize, dataPages);
    if dataPages > (TWO64 - 1) / pageSize - 1 {
      return Err(TooLarge), log;
    }
    CheckedPagesDivideCounter(pageSize, dataPages);
    r, log := Build(target, openings, pageSize, pageSize * dataPages, eventFd, faithful);
  }

  // ----- lifecycle

  datatype SamplerError =
    | EnableFailed
    | DisableFailed
    | StartFailed(start: StartError)
    | CollectionFailed(failure: Failure)

  /** What the system and the worker do during one stop. */
  datatype StopInput = StopInput(disabled: seq<bool>, polls: seq<Poll>, wakeFails: bool)

  datatype StartInput = StartInput(maskFails: bool, threadFails: bool, enabled: seq<bool>, stop: StopInput)

  function WorkerOf(started: bool, stopped: bool): Worker {
    if !started then Idle else if stopped then Joined else Running
  }

  class Sampler {
    const rings: seq<PerfRing>
    const collector: Collector
    var started: bool
    var stopped: bool
    var failure: Option<SamplerError>
    ghost const owned: seq<Ownership>
    ghost var log: seq<Event>

    /** Valid, except that a start that is about to stop may already have noted its failure. */
    ghost predicate Stoppable()
      reads this, collector, collector.wake, rings
    {
      && collector.AtRest()
      && Built(rings, owned) && collector.wake.fd.Some?
      && |collector.memories| == |rings|
      && stopped == collector.stopped
      && (stopped && failure == None ==> collector.failure == None)
      && Holding(log, owned, collector.wake.fd, WorkerOf(collector.started, stopped), stopped)
    }

    ghost predicate Valid()
      reads this, collector, collector.wake, rings
    {
      && Stoppable()
      && (failure != None ==> stopped)
      && (!stopped ==> started == collector.started)
    }

    constructor (rings: seq<PerfRing>, collector: Collector, ghost owned: seq<Ownership>, ghost log: seq<Event>)
      requires collector.AtRest() && !collector.started && !collector.stopped && |collector.memories| == |rings|
      requires Built(rings, owned) && collector.wake.fd.Some? && Holding(log, owned, collector.wake.fd, Idle, true)
      ensures Valid() && this.rings == rings && this.collector == collector && this.log == log
      ensures !started && !stopped
    {
      this.rings, this.collector, this.owned, this.log := rings, collector, owned, log;
      started, stopped, failure := false, false, None;
      new;
      hide FdsOf, MappingsOf, Replay, Built;
    }

    /** The loop of Impl::stop that disables the rings, whether or not the kernel agrees. */
    method DisableRings(answers: seq<bool>) returns (failed: bool)
      requires Stoppable() && !stopped
      modifies this`log
      ensures failed == Refuses(answers, |rings|)
      ensures Holding(log, owned, collector.wake.fd, WorkerOf(collector.started, false), true)
    {
      hide Replay, FdsOf, MappingsOf, Refuses;
      ghost var log';
      failed, log' := DisableAll(rings, answers, owned, log);
      log := log';
    }

    /** Impl::stop: disables every ring and stops the collector, whatever fails on the way,
        and reports the first failure ever seen. */
    method Stop(input: StopInput) returns (r: Result<(), SamplerError>)
      requires Stoppable()
      modifies this`stopped, this`failure, this`log, collector
      ensures Valid() && stopped && collector.started == old(collector.started)
      ensures r == if failure == None then Ok(()) else Err(failure.value)
      ensures old(failure) != None ==> failure == old(failure)
      ensures old(stopped) ==> failure == old(failure) && unchanged(collector)
      ensures !old(stopped) && old(failure) == None ==>
                failure == if Refuses(input.disabled, |rings|) then Some(DisableFailed)
                           else if collector.failure.Some? then Some(CollectionFailed(collector.failure.value))
                           else None
      // a failure of the collector has its cause
      ensures !old(stopped) && old(failure) == None && failure.Some? && failure.value.CollectionFailed? ==>
                var f := failure.value.failure;
                (f.BadRecord? ==> old(collector.Tracked())) ==>
                  if f == WakeError then input.wakeFails
                  else Caused(f, input.polls, collector.memories, collector.histories)
      // and without a cause, on a kernel that publishes whole records, the stop succeeds
      ensures !old(stopped) && old(failure) == None && !Refuses(input.disabled, |rings|)
              && (old(collector.started) ==> collector.Succeeds(input.polls, input.wakeFails) && old(collector.Tracked()))
              ==> r.Ok?
      // trouble of the worker is not passed over
      ensures !old(stopped) && old(collector.started) && Troubled(input.polls, |rings|) ==> r.Err?
      // a normal return leaves nothing behind that was published before the stop
      ensures r.Ok? && old(collector.OnTrack()) ==> collector.OnTrack()
    {
      hide Holding, Built, Refuses, Caused, Troubled, InTimeOrder, WholeRecords, Counted;
      if !stopped {
        var refused := DisableRings(input.disabled);
        if refused && failure == None {
          failure := Some(DisableFailed);
        }
        var joined := collector.Stop(input.polls, input.wakeFails);
        if joined.Err? && failure == None {
          failure := Some(CollectionFailed(joined.error));
        }
        if collector.started {
          WorkerMoves(log, owned, collector.wake.fd, true);
          log := log + [WorkerJoined];
        }
        stopped := true;
      }
      r := if failure == None then Ok(()) else Err(failure.value);
    }

    /** start: a second start is refused and changes nothing; a start that fails half-way is
        stopped again and its failure latched. */
    method Start(input: StartInput) returns (r: Result<Option<SamplerError>, ()>)
      requires Valid()
      modifies this, collector
      ensures Valid()
      ensures r.Err? <==> old(started) || old(stopped)
      ensures r.Err? ==> unchanged(this) && unchanged(collector)
      ensures r.Ok? ==> r.value == failure && started == (failure == None) && stopped == (failure != None)
      ensures r.Ok? ==> (failure != None <==> input.maskFails || input.threadFails || Refuses(input.enabled, |rings|))
      ensures r.Ok? && Refuses(input.enabled, |rings|) && !input.maskFails && !input.threadFails ==>
                failure == Some(EnableFailed)
      // a start that succeeds leaves the worker running and every ring enabled
      ensures r == Ok(None) ==> collector.started && |owned| == |rings| && EnabledTo(log, owned, |owned|)
      ensures failure == None && old(collector.OnTrack()) ==> collector.OnTrack()
    {
      hide Holding, Refuses, EnabledTo;
      if started || stopped {
        return Err(());
      }
      var worker := collector.Start(input.maskFails, input.threadFails);
      if worker.Err? {
        failure := Some(StartFailed(worker.error));
        var _ := Stop(input.stop);
        return Ok(failure);
      }
      WorkerMoves(log, owned, collector.wake.fd, false);
      log := log + [WorkerStarted];
      var enabled := EnableRings(input.enabled);
      if !enabled {
        failure := Some(EnableFailed);
        var _ := Stop(input.stop);
        return Ok(failure);
      }
      started := true;
      return Ok(None);
    }

    /** The loop of start that enables the rings. */
    method EnableRings(answers: seq<bool>) returns (enabled: bool)
      requires Stoppable() && !stopped && collector.started
      modifies this`log
      ensures Stoppable()
      ensures enabled == !Refuses(answers, |rings|)
      ensures enabled ==> EnabledTo(log, owned, |owned|)
    {
      hide Holding, Refuses, EnabledTo;
      NoneRefused(answers);
      NoneEnabledYet(log, owned, collector.wake.fd, WorkerOf(collector.started, stopped));
      for i := 0 to |rings|
        invariant Stoppable() && !Refuses(answers, i) && EnabledTo(log, owned, i)
      {
        RefusesNext(answers, i);
        if i < |answers| && !answers[i] {
          RefusesMore(answers, i, |rings|);
          return false;
        }
        assert Owned(rings[i]) == owned[i];
        OneEnabled(log, owned, collector.wake.fd, i);
        log := log + [Enabled(rings[i].fd.value)];
      }
      enabled := true;
    }

    method Samples() returns (r: Result<seq<CpuSample>, Option<SamplerError>>)
      requires Valid()
      ensures failure != None ==> r == Err(failure)
      ensures failure == None ==> r == if stopped then Ok(collector.samples) else Err(None)
      ensures r.Ok? && collector.Tracked() ==>
                InTimeOrder(r.value) && multiset(r.value) == AllSamples(collector.decoded, collector.target)
    {
      if failure != None {
        return Err(failure);
      }
      var read := collector.Samples();
      r := if read.Ok? then Ok(read.value) else Err(None);
    }

    method LostSamples() returns (r: Result<u64, Option<SamplerError>>)
      requires Valid()
      ensures failure != None ==> r == Err(failure)
      ensures failure == None ==> r == if stopped then Ok(collector.lost) else Err(None)
      ensures r.Ok? && collector.Tracked() ==> r.value == AllLost(collector.decoded) % TWO64
    {
      if failure != None {
        return Err(failure);
      }
      var read := collector.LostSamples();
      r := if read.Ok? then Ok(read.value) else Err(None);
    }

    /** The destructor: stops, whatever that reports, then destroys the collector and, last, the rings. */
    method Destroy(input: StopInput)
      requires Valid()
      modifies this, collector, collector.wake, rings
      ensures Clean(log) && collector.AtRest()
      ensures old(stopped) ==> unchanged(collector)
    {
      hide Replay, FdsOf, MappingsOf, Note, Refuses;
      var _ := Stop(input);
      ReadyToRelease(log, owned, collector.wake.fd, WorkerOf(collector.started, true));
      ghost var log' := collector.Destroy([], false, log);
      log' := DestroyAll(rings, owned, log', multiset{});
      log := log';
    }
  }

  lemma NoneEnabledYet(log: seq<Event>, owned: seq<Ownership>, wake: Option<nat>, worker: Worker)
    requires Holding(log, owned, wake, worker, false)
    ensures EnabledTo(log, owned, 0)
  {
  }

  lemma NoneRefused(answers: seq<bool>)
    ensures !Refuses(answers, 0)
  {
  }

  lemma RefusesMore(answers: seq<bool>, i: nat, n: nat)
    requires i < n && i < |answers| && !answers[i]
    ensures Refuses(answers, n)
  {
  }

  /** Once the worker is gone and the rings are disabled, closing the eventfd leaves just the rings. */
  lemma ReadyToRelease(log: seq<Event>, owned: seq<Ownership>, wake: Option<nat>, worker: Worker)
    requires Holding(log, owned, wake, worker, true) && wake.Some? && worker != Running
    ensures var h := Replay(log).value;
      Note(h, Closed(wake.value)) == Some(Held(FdsOf(owned) + multiset{}, MappingsOf(owned), {}, worker))
  {
    assert FdsOf(owned) + multiset{wake.value} - multiset{wake.value} == FdsOf(owned) + multiset{};
  }

  // ----- every sequence of calls

  datatype Call =
    | CallStart(start: StartInput)
    | CallStop(stop: StopInput)
    | CallSamples
    | CallLostSamples

  datatype Answer =
    | Done
    | Refused
    | GotSamples(samples: seq<CpuSample>)
    | GotLost(lost: u64)
    | Failed(error: SamplerError)

  /** Nothing goes wrong in this call: no system call of the main thread fails, and no poll before the wake-up. */
  predicate Smooth(call: Call, rings: nat) {
    match call
    case CallStart(start) => !start.maskFails && !start.threadFails && !Refuses(start.enabled, rings)
    case CallStop(stop) => !Refuses(stop.disabled, rings) && !Troubled(stop.polls, rings) && !stop.wakeFails
    case _ => true
  }

  /** What an accessor gave out is everything the collector decoded. */
  ghost predicate Reported(answer: Answer, c: Collector)
    reads c
  {
    && (answer.GotSamples? ==>
        InTimeOrder(answer.samples) && multiset(answer.samples) == AllSamples(c.decoded, c.target))
    && (answer.GotLost? ==> answer.lost == AllLost(c.decoded) % TWO64)
  }

  /** Makes one call and says how it ended. */
  method MakeCall(sampler: Sampler, call: Call) returns (answer: Answer)
    requires sampler.Valid()
    modifies sampler, sampler.collector
    ensures sampler.Valid()
    ensures old(sampler.failure) != None ==> sampler.failure == old(sampler.failure)
    ensures answer.Failed? ==> sampler.failure == Some(answer.error)
    ensures old(sampler.failure) != None && !call.CallStart? ==> answer == Failed(old(sampler.failure).value)
    ensures old(sampler.failure) != None && call.CallStart? ==> answer == Refused
    ensures answer.GotSamples? || answer.GotLost? ==> sampler.stopped && sampler.failure == None
    ensures sampler.collector.Tracked() ==> Reported(answer, sampler.collector)
    ensures sampler.failure == None && old(sampler.collector.OnTrack()) ==> sampler.collector.OnTrack()
    // on a kernel that publishes whole records, a call in which nothing goes wrong succeeds
    ensures old(sampler.failure) == None && sampler.collector.faithful && old(sampler.collector.OnTrack())
            && Smooth(call, |sampler.rings|) ==>
              && sampler.failure == None
              && (call.CallStop? ==> answer == Done && sampler.stopped)
              && (old(sampler.stopped) && call.CallSamples? ==> answer.GotSamples?)
              && (old(sampler.stopped) && call.CallLostSamples? ==> answer.GotLost?)
    ensures old(sampler.stopped) ==>
              sampler.stopped && sampler.failure == old(sampler.failure) && unchanged(sampler.collector)
  {
    hide Refuses, Troubled, Counted, InTimeOrder, WholeRecords, Caused, Holding, Built;
    match call
    case CallStart(input) =>
      var r := sampler.Start(input);
      answer := if r.Err? then Refused else if r.value.Some? then Failed(r.value.value) else Done;
    case CallStop(input) =>
      var r := sampler.Stop(input);
      answer := if r.Ok? then Done else Failed(r.error);
    case CallSamples =>
      var r := sampler.Samples();
      answer := if r.Ok? then GotSamples(r.value) else if r.error.Some? then Failed(r.error.value) else Refused;
    case CallLostSamples =>
      var r := sampler.LostSamples();
      answer := if r.Ok? then GotLost(r.value) else if r.error.Some? then Failed(r.error.value) else Refused;
  }

  /** From the first failure reported on, every stop and every accessor reports that failure. */
  ghost predicate Latched(calls: seq<Call>, answers: seq<Answer>) {
    |answers| <= |calls| &&
    forall i, j :: 0 <= i < j < |answers| && answers[i].Failed? && !calls[j].CallStart? ==> answers[j] == answers[i]
  }

  /** A sampler's whole life, for every sequence of calls and every failure of the system. */
  method Lifetime(sampler: Sampler, calls: seq<Call>, last: StopInput) returns (answers: seq<Answer>)
    requires sampler.Valid()
    modifies sampler, sampler.collector, sampler.collector.wake, sampler.rings
    ensures |answers| == |calls| && Latched(calls, answers)
    // every descriptor, the eventfd's too, and every mapping is released exactly once, after the worker was joined
    ensures Clean(sampler.log)
    // whatever the accessors gave out is complete
    ensures sampler.collector.AtRest()
    ensures forall i :: 0 <= i < |answers| && (answers[i].GotSamples? || answers[i].GotLost?) && old(sampler.collector.OnTrack()) ==>
              && sampler.collector.Tracked() && (sampler.collector.started ==> sampler.collector.Complete())
              && Reported(answers[i], sampler.collector)
    // and on a kernel that publishes whole records, if nothing goes wrong, they do give it out after a stop
    ensures old(sampler.collector.OnTrack()) && old(sampler.failure) == None && sampler.collector.faithful
            && (forall i :: 0 <= i < |calls| ==> Smooth(calls[i], |sampler.rings|)) ==>
              forall i, j :: 0 <= i < j < |calls| && calls[i].CallStop? ==>
                (calls[j].CallSamples? ==> answers[j].GotSamples?) && (calls[j].CallLostSamples? ==> answers[j].GotLost?)
  {
    hide Clean, Holding, Built, Smooth, Reported, Counted, InTimeOrder, WholeRecords;
    answers := [];
    ghost var smooth := sampler.collector.OnTrack() && sampler.failure == None && sampler.collector.faithful
      && forall i :: 0 <= i < |calls| ==> Smooth(calls[i], |sampler.rings|);
    for i := 0 to |calls|
      invariant sampler.Valid() && |answers| == i && Latched(calls, answers)
      invariant forall j :: 0 <= j < i && answers[j].Failed? ==> sampler.failure == Some(answers[j].error)
      invariant old(sampler.collector.OnTrack()) && sampler.failure == None ==> sampler.collector.OnTrack()
      invariant forall j :: 0 <= j < i && (answers[j].GotSamples? || answers[j].GotLost?) ==>
                  && sampler.stopped && sampler.failure == None
                  && (old(sampler.collector.OnTrack()) ==> Reported(answers[j], sampler.collector))
      invariant smooth ==>
                  && sampler.failure == None
                  && (forall j :: 0 <= j < i && calls[j].CallStop? ==> sampler.stopped)
                  && forall h, j :: 0 <= h < j < i && calls[h].CallStop? ==>
                       (calls[j].CallSamples? ==> answers[j].GotSamples?) && (calls[j].CallLostSamples? ==> answers[j].GotLost?)
    {
      var answer := MakeCall(sampler, calls[i]);
      answers := answers + [answer];
    }
    sampler.Destroy(last);
  }
}
