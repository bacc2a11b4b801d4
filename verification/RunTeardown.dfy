/** What the end of a run does to the collectors it still holds
    (src/process/process_runner.cpp:628-709, 737; src/perf/perf_sampler.cpp:83-89). */
module RunTeardown {
  import opened Results
  import opened ProcessRunner
  import opened RunnerProtocol
  import opened RunGuarantees
  import opened RunOutcome

  // ----- the summary and the log

  lemma AwaitedIs(log: seq<Action>)
    ensures HasAwaited(log, Target) == PastOf(log).target.gone
    ensures HasAwaited(log, Workload) == PastOf(log).workload.gone
  {
    hide PastOf, HasAwaited;
    AllWitnessed(log);
    if HasAwaited(log, Target) {
      RemembersAwait(log, Target);
    }
    if HasAwaited(log, Workload) {
      RemembersAwait(log, Workload);
    }
  }

  lemma MarkIs(log: seq<Action>, a: Action)
    requires a in log
    ensures Remembers(PastOf(log), a)
  {
    hide PastOf, Remembers;
    var k :| 0 <= k < |log| && log[k] == a;
    Remembered(log, k);
  }

  /** The marks of collectors and workload are what the log says. */
  lemma MarksAre(log: seq<Action>)
    ensures StartedSampler in log <==> PastOf(log).used.samplerOn
    ensures StoppedSampler in log <==> PastOf(log).used.samplerOff
    ensures StartedCounters in log <==> PastOf(log).used.countersOn
    ensures StoppedCounters in log <==> PastOf(log).used.countersOff
    ensures StartedWorkload in log <==> PastOf(log).started
    ensures DroppedSampler in log ==> PastOf(log).used.samplerGone
    ensures DroppedCounters in log ==> PastOf(log).used.countersGone
  {
    hide PastOf;
    AllWitnessed(log);
    forall a | a in log
      ensures Remembers(PastOf(log), a)
    {
      MarkIs(log, a);
    }
  }

  // ----- the collectors in the loop

  /** A sampler that is held has been started exactly if the collectors have been started as a pair,
      and nothing is stopped before the workload was started. */
  predicate Tuned(s: Loop) {
    var p := PastOf(s.log);
    && (s.sampler ==> (p.used.samplerOn <==> s.collectorsStarted))
    && (!p.started ==> !p.used.samplerOff && !p.used.countersOff && !s.collectorsStopped)
    && (s.workload ==> p.started)
  }

  predicate Indifferent(a: Action) {
    a.Sent? || a.Deadline? || a.Reaped? || a.GroupKilled?
  }

  lemma DidTuned(s: Loop, a: Action)
    requires Tuned(s) && Indifferent(a)
    ensures Tuned(Did(s, a))
  {
    PastOfMore(s.log, a);
    hide PastOf;
  }

  /** The fields that Tuned depends on. */
  predicate SameTuning(s: Loop, t: Loop) {
    SameHold(s, t) && t.log == s.log && (t.workload ==> s.workload)
  }

  lemma TunedAlike(s: Loop, t: Loop)
    requires Tuned(s) && SameTuning(s, t)
    ensures Tuned(t)
  {
    hide PastOf;
  }

  lemma GrantTuned(s: Loop, until: int)
    requires Tuned(s)
    ensures Tuned(Grant(s, until))
  {
    hide Tuned;
    DidTuned(s, Deadline(until));
    TunedAlike(Did(s, Deadline(until)), Grant(s, until));
  }

  lemma TerminateTuned(s: Loop, i: Input, grace: nat)
    requires Tuned(s)
    ensures Tuned(Terminate(s, i, grace).state)
  {
    hide Tuned, Did, Grant;
    var a := s.(stopping := true);
    TunedAlike(s, a);
    DidTuned(a, Sent(Target, Term, i.now));
    GrantTuned(Did(a, Sent(Target, Term, i.now)), i.now + grace);
  }

  lemma SignalAllTuned(s: Loop, i: Input, signal: Signal)
    requires Tuned(s)
    ensures Tuned(SignalAll(s, i, signal).state)
  {
    hide Tuned, Did;
    var a := Did(s, Sent(Target, signal, i.now));
    DidTuned(s, Sent(Target, signal, i.now));
    DidTuned(a, Sent(Workload, signal, i.now));
  }

  lemma SignalTuned(o: Options, s: Loop, flagged: Loop, i: Input, signal: Signal)
    requires Tuned(s) && SameTuning(s, flagged)
    ensures Tuned(SignalWithGrace(o, flagged, i, signal).state)
  {
    hide Tuned, SignalAll, Grant, SameTuning;
    TunedAlike(s, flagged);
    SignalAllTuned(flagged, i, signal);
    var a := SignalAll(flagged, i, signal);
    if !a.Throw? {
      GrantTuned(a.state, i.now + o.terminationGrace);
    }
  }

  lemma KillTuned(s: Loop, i: Input)
    requires Tuned(s)
    ensures Tuned(KillAll(s, i).state)
  {
    hide Tuned, SignalAll;
    SignalAllTuned(s, i, Kill);
    var a := SignalAll(s, i, Kill).state;
    TunedAlike(a, a.(sentKill := true));
  }

  lemma StopPhaseTuned(o: Options, startedAt: int, s: Loop, i: Input)
    requires Tuned(s)
    ensures Tuned(StopPhase(o, startedAt, s, i).state)
  {
    SignalTuned(o, s, s.(interrupted := true, stopping := true), i, Received(i.receivedSignal));
    SignalTuned(o, s, s.(timedOut := true, stopping := true), i, Term);
    KillTuned(s, i);
    hide Tuned, SignalWithGrace, KillAll;
  }

  // once the workload has been started

  lemma StopTuned(s: Loop, a: Action)
    requires Tuned(s) && PastOf(s.log).started && (a == StoppedCounters || a == StoppedSampler)
    ensures Tuned(Did(s, a)) && PastOf(Did(s, a).log).started
  {
    PastOfMore(s.log, a);
    hide PastOf;
  }

  lemma StoppedTuned(s: Loop, counters: bool, sampler: bool, stopped: bool)
    requires Tuned(s) && PastOf(s.log).started && (sampler ==> s.sampler)
    ensures var t := s.(counters := counters, sampler := sampler, collectorsStopped := stopped);
      Tuned(t) && PastOf(t.log).started
  {
    hide PastOf;
  }

  lemma StopCountersTuned(o: Options, s: Loop, i: CollectorInput)
    requires Tuned(s) && PastOf(s.log).started
    ensures var t := StopCounters(o, s, i).state; Tuned(t) && PastOf(t.log).started
  {
    hide Tuned, PastOf;
    StopTuned(s, StoppedCounters);
    var t := Did(s, StoppedCounters);
    StoppedTuned(t, false, t.sampler, t.collectorsStopped);
  }

  lemma StopSamplerTuned(o: Options, s: Loop, i: CollectorInput)
    requires Tuned(s) && PastOf(s.log).started
    ensures var t := StopSampler(o, s, i).state; Tuned(t) && PastOf(t.log).started
  {
    hide Tuned, PastOf;
    StopTuned(s, StoppedSampler);
    var t := Did(s, StoppedSampler);
    StoppedTuned(t, t.counters, false, t.collectorsStopped);
  }

  lemma StopCollectorsTuned(o: Options, s: Loop, i: CollectorInput)
    requires Tuned(s) && PastOf(s.log).started
    ensures Tuned(StopCollectors(o, s, i).state)
  {
    hide Tuned, PastOf, StopCounters, StopSampler;
    StopCountersTuned(o, s, i);
    var a := StopCounters(o, s, i).state;
    StopSamplerTuned(o, a, i);
    var b := StopSampler(o, a, i).state;
    StoppedTuned(b, b.counters, b.sampler, true);
  }

  lemma CollectTuned(s: Loop, status: Status)
    requires Tuned(s) && s.workload
    ensures var t := CollectWorkload(s, status); Tuned(t) && PastOf(t.log).started
  {
    var a := Did(s, Reaped(Workload, status));
    DidTuned(s, Reaped(Workload, status));
    DidTuned(a, GroupKilled(Workload));
    TunedAlike(Did(a, GroupKilled(Workload)), CollectWorkload(s, status));
    PastOfMore(s.log, Reaped(Workload, status));
    PastOfMore(a.log, GroupKilled(Workload));
    hide PastOf;
  }

  lemma WorkloadPhaseTuned(o: Options, s: Loop, i: Input)
    requires Tuned(s)
    ensures Tuned(WorkloadPhase(o, s, i).state)
  {
    hide Tuned, PastOf, CollectWorkload, StopCollectors, Judge, Terminate;
    if s.workload && o.service.Some? && i.workloadWait.Ended? {
      var status := i.workloadWait.status;
      CollectTuned(s, status);
      var t := CollectWorkload(s, status);
      StopCollectorsTuned(o, t, i.stop);
      var a := StopCollectors(o, t, i.stop).state;
      JudgeAlike(a, status);
      TunedAlike(a, Judge(a, status));
      TerminateTuned(Judge(a, status), i, o.service.value.shutdownGrace);
    }
  }

  // before it is started

  lemma StartCollectorsTuned(o: Options, d: nat, s: Loop, i: CollectorInput)
    requires Legal(o, d, s.log) && Untouched(PastOf(s.log)) && PastOf(s.log).used == UNUSED
    requires !s.workload && !s.collectorsStopped && (s.sampler ==> !s.collectorsStarted)
    ensures Tuned(StartCollectors(o, s, i).state)
  {
    hide Legal, PastOf, Prepares, StartCounters, StartSampler;
    StartingCounters(o, d, s, i);
    var a := StartCounters(s, i).state;
    PreparesKeeps(o, d, s, a);
    PreparedStanding(o, d, s, a);
    if StartCounters(s, i).Continue? {
      StartingSampler(o, d, a, i);
      var b := StartSampler(o, a, i).state;
      PreparesKeeps(o, d, a, b);
      PreparedStanding(o, d, a, b);
      SamplerThrows(o, a, i);
    }
    NeverLeft(o, s, i);
  }

  lemma PreparedStanding(o: Options, d: nat, s: Loop, t: Loop)
    requires Prepares(o, d, s, t)
    ensures t.workload == s.workload && PastOf(t.log).started == PastOf(s.log).started
  {
    hide Legal, PastOf;
  }

  lemma SamplerThrows(o: Options, s: Loop, i: CollectorInput)
    ensures StartSampler(o, s, i).Throw? ==> !StartSampler(o, s, i).state.sampler
    ensures StartSampler(o, s, i).state.collectorsStarted == s.collectorsStarted
  {
    hide Did;
    DidHolds(s, StartedSampler);
  }

  lemma DidHolds(s: Loop, a: Action)
    ensures SameHold(s, Did(s, a))
  {
  }

  lemma ServicePhaseTuned(o: Options, d: nat, startedAt: int, low: int, s: Loop, i: Input)
    requires Follows(o, d, low, i.now, s) && Tuned(s)
    ensures Tuned(ServicePhase(o, startedAt, s, i).state)
  {
    hide Legal, PastOf, StartCollectors, Terminate, Accounted, Stopping;
    if o.service.Some? && !s.workload && !s.stopping {
      LaunchTuned(o, d, low, s, i);
      var a := s.(failure := Some(ReadinessTimedOut));
      TunedAlike(s, a);
      TerminateTuned(a, i, o.service.value.shutdownGrace);
    }
  }

  lemma LaunchTuned(o: Options, d: nat, low: int, s: Loop, i: Input)
    requires Follows(o, d, low, i.now, s) && Tuned(s) && o.service.Some? && !s.workload && !s.stopping
    ensures Tuned(BeginWorkload(o, s, i).state)
  {
    OwesNothing(o, d, low, i.now, s);
    StartCollectorsTuned(o, d, s, i.start);
    hide Legal, PastOf, StartCollectors;
    var a := StartCollectors(o, s, i.start);
    if a.Continue? {
      Launched(a.state);
    }
  }

  lemma Launched(s: Loop)
    requires Tuned(s)
    ensures Tuned(Did(s, StartedWorkload).(workload := true))
  {
    PastOfMore(s.log, StartedWorkload);
    hide PastOf;
  }

  // whole runs

  lemma IterateTuned(o: Options, d: nat, startedAt: int, last: int, s: Loop, i: Input)
    requires Follows(o, d, last, last, s) && Tuned(s)
    requires Polls(i) ==> last <= i.now <= last + d
    ensures Tuned(Iterate(o, startedAt, s, i).state)
  {
    hide Tuned, Follows, ServicePhase, WorkloadPhase, StopPhase, Did;
    if i.wait.Ended? {
      DidTuned(s, Reaped(Target, i.wait.status));
    } else if Polls(i) {
      FollowsLater(o, d, last, i.now, s);
      ServicePhaseTuned(o, d, startedAt, last, s, i);
      var a := ServicePhase(o, startedAt, s, i).state;
      WorkloadPhaseTuned(o, a, i);
      StopPhaseTuned(o, startedAt, WorkloadPhase(o, a, i).state, i);
    }
  }

  lemma {:induction false} IterationsTuned(o: Options, d: nat, startedAt: int, last: int, s: Loop, inputs: seq<Input>)
    requires Follows(o, d, last, last, s) && Tuned(s) && Paced(d, last, inputs)
    ensures Tuned(Iterations(o, startedAt, s, inputs).state)
    decreases |inputs|
  {
    hide Tuned, Follows, Iterate;
    if inputs != [] {
      IterateSound(o, d, startedAt, last, s, inputs[0]);
      IterateTuned(o, d, startedAt, last, s, inputs[0]);
      var r := Iterate(o, startedAt, s, inputs[0]);
      if r.Continue? {
        IterateContinues(o, startedAt, s, inputs[0]);
        IterationsTuned(o, d, startedAt, inputs[0].now, r.state, inputs[1..]);
      }
    }
  }

  /** The state in which a run throws before its loop is over. */
  function ThrownFrom(o: Options, startedAt: int, counters: bool, sampler: bool, start: CollectorInput,
                      inputs: seq<Input>): Option<Loop> {
    var first := Begin(o, counters, sampler, start);
    if first.Throw? then Some(first.state)
    else
      var r := Iterations(o, startedAt, first.state, inputs);
      if r.Throw? then Some(r.state) else None
  }

  lemma BeginTuned(o: Options, d: nat, counters: bool, sampler: bool, start: CollectorInput)
    ensures Tuned(Begin(o, counters, sampler, start).state)
  {
    hide StartCollectors, Legal;
    NothingYet(o, d);
    StartCollectorsTuned(o, d, Initial(counters, sampler), start);
  }

  lemma ThrownIsTuned(o: Options, d: nat, startedAt: int, counters: bool, sampler: bool, start: CollectorInput,
                      inputs: seq<Input>)
    requires Paced(d, startedAt, inputs)
    ensures var s := ThrownFrom(o, startedAt, counters, sampler, start, inputs);
      s.Some? ==> Accounted(o, d, s.value) && Tuned(s.value)
  {
    hide Begin, Iterations, Tuned, Accounted, Follows, Paced;
    InitiallySound(o, d, startedAt, counters, sampler, start);
    BeginTuned(o, d, counters, sampler, start);
    var first := Begin(o, counters, sampler, start);
    if first.Continue? {
      IterationsSound(o, d, startedAt, startedAt, first.state, inputs);
      IterationsTuned(o, d, startedAt, startedAt, first.state, inputs);
    }
  }

  // ----- a collector that is cut short

  /** A collector with these actions has been started and not stopped, and nothing it measures has ended. */
  predicate StillMeasures(log: seq<Action>, started: Action, stopped: Action) {
    started in log && stopped !in log && !HasAwaited(log, Workload) && !HasAwaited(log, Target)
  }

  predicate CutShortAt(log: seq<Action>, k: nat, started: Action, stopped: Action, dropped: Action) {
    k < |log| && log[k] == dropped && StillMeasures(log[..k], started, stopped)
  }

  /** The destructor of the sampler stops it while it measures. */
  predicate SamplerCutShort(log: seq<Action>) {
    exists k: nat :: k < |log| && CutShortAt(log, k, StartedSampler, StoppedSampler, DroppedSampler)
  }

  predicate CountersCutShort(log: seq<Action>) {
    exists k: nat :: k < |log| && CutShortAt(log, k, StartedCounters, StoppedCounters, DroppedCounters)
  }

  const TARGET_GUARD: seq<Action> := [GroupKilled(Target), PidKilled(Target), Waited(Target)]

  /** A log in which the collector is destroyed just once, after the given part. */
  lemma CutOnlyThere(log: seq<Action>, core: seq<Action>, dropped: Action, rest: seq<Action>,
                     started: Action, stopped: Action)
    requires log == core + [dropped] + rest && dropped !in core && dropped !in rest
    ensures (exists k: nat :: k < |log| && CutShortAt(log, k, started, stopped, dropped)) <==>
            StillMeasures(core, started, stopped)
  {
    hide StillMeasures;
    assert log[|core|] == dropped && log[..|core|] == core;
    assert CutShortAt(log, |core|, started, stopped, dropped) == StillMeasures(core, started, stopped);
    assert forall k: nat :: k < |core| ==> log[k] == core[k];
    assert forall k: nat :: |core| < k < |log| ==> log[k] == rest[k - |core| - 1];
    assert forall k: nat :: k < |log| && CutShortAt(log, k, started, stopped, dropped) ==> k == |core|;
  }

  /** What a throwing run destroys before its collectors. */
  function BeforeDrops(s: Loop): Loop {
    if s.workload then Destroy(s, Workload) else s
  }

  lemma UnwindIs(s: Loop)
    ensures Unwind(s) == DropCollectors(BeforeDrops(s)).log + TARGET_GUARD
    ensures var core := BeforeDrops(s).log;
      DropCollectors(BeforeDrops(s)).log ==
      core + (if s.sampler then [DroppedSampler] else []) + (if s.counters then [DroppedCounters] else [])
  {
    DestroyHolds(s, Workload);
    hide Destroy;
    GuardLog(DropCollectors(BeforeDrops(s)));
  }

  lemma GuardLog(s: Loop)
    ensures Destroy(s, Target).log == s.log + TARGET_GUARD
  {
  }

  /** What holds of the log before the collectors are destroyed. */
  lemma BeforeDropsIs(o: Options, d: nat, s: Loop)
    requires Accounted(o, d, s)
    ensures var p, q := PastOf(s.log), PastOf(BeforeDrops(s).log);
      && q.used == p.used && q.started == p.started && !q.target.gone && (q.workload.gone <==> p.started)
      && p.used.Kept()
  {
    hide Legal, PastOf, Destroy;
    if s.workload {
      DestroyKeeps(o, d, s, Workload);
    }
  }

  lemma Measuring(log: seq<Action>)
    requires PastOf(log).workload.gone == PastOf(log).started && !PastOf(log).target.gone
    ensures StillMeasures(log, StartedSampler, StoppedSampler) <==>
            PastOf(log).used.samplerOn && !PastOf(log).used.samplerOff && !PastOf(log).started
    ensures StillMeasures(log, StartedCounters, StoppedCounters) <==>
            PastOf(log).used.countersOn && !PastOf(log).used.countersOff && !PastOf(log).started
  {
    hide PastOf, HasAwaited;
    MarksAre(log);
    AwaitedIs(log);
  }

  lemma UnwindCutsSampler(o: Options, d: nat, s: Loop)
    requires Accounted(o, d, s) && Tuned(s)
    ensures SamplerCutShort(Unwind(s)) <==>
            s.sampler && s.collectorsStarted && !s.collectorsStopped && StartedWorkload !in s.log
  {
    hide PastOf, Unwind, DropCollectors, BeforeDrops, Accounted, StillMeasures, CutShortAt;
    var core := BeforeDrops(s).log;
    UnwindIs(s);
    BeforeDropsIs(o, d, s);
    MarksAre(core);
    MarksAre(s.log);
    Measuring(core);
    var rest := (if s.counters then [DroppedCounters] else []) + TARGET_GUARD;
    if s.sampler {
      assert Unwind(s) == core + [DroppedSampler] + rest;
      CutOnlyThere(Unwind(s), core, DroppedSampler, rest, StartedSampler, StoppedSampler);
    } else {
      assert Unwind(s) == core + rest;
      NeverDropped(Unwind(s), StartedSampler, StoppedSampler, DroppedSampler);
    }
  }

  lemma NeverDropped(log: seq<Action>, started: Action, stopped: Action, dropped: Action)
    requires dropped !in log
    ensures forall k: nat :: k < |log| ==> !CutShortAt(log, k, started, stopped, dropped)
  {
  }

  lemma SamplerDropKeeps(log: seq<Action>)
    ensures var p, q := PastOf(log), PastOf(log + [DroppedSampler]);
      q == p.(used := p.used.(samplerGone := true))
  {
    PastOfMore(log, DroppedSampler);
    hide PastOf;
  }

  lemma UnwindCutsCounters(o: Options, d: nat, s: Loop)
    requires Accounted(o, d, s) && Tuned(s)
    ensures CountersCutShort(Unwind(s)) <==> s.counters && StartedCounters in s.log && StartedWorkload !in s.log
  {
    hide PastOf, Unwind, DropCollectors, BeforeDrops, Accounted, StillMeasures, CutShortAt;
    var before := BeforeDrops(s).log;
    var core := before + if s.sampler then [DroppedSampler] else [];
    UnwindIs(s);
    BeforeDropsIs(o, d, s);
    SamplerDropKeeps(before);
    assert !s.sampler ==> core == before;
    MarksAre(core);
    MarksAre(s.log);
    Measuring(core);
    if s.counters {
      assert Unwind(s) == core + [DroppedCounters] + TARGET_GUARD;
      CutOnlyThere(Unwind(s), core, DroppedCounters, TARGET_GUARD, StartedCounters, StoppedCounters);
    } else {
      assert Unwind(s) == core + TARGET_GUARD;
      NeverDropped(Unwind(s), StartedCounters, StoppedCounters, DroppedCounters);
    }
  }

  /** Once the target has been reaped, no destructor cuts a collector short. */
  lemma LateDrops(o: Options, d: nat, s: Loop, log: seq<Action>)
    requires Finishing(o, d, s) && s.log <= log
    ensures !SamplerCutShort(log) && !CountersCutShort(log)
  {
    hide PastOf, HasAwaited;
    AwaitedIs(s.log);
    MarksAre(s.log);
    assert forall k: nat :: k < |s.log| ==> log[k] == s.log[k];
    forall k: nat | |s.log| <= k < |log|
      ensures HasAwaited(log[..k], Target)
    {
      StillAwaited(s.log, log[..k]);
    }
  }

  lemma StillAwaited(log: seq<Action>, more: seq<Action>)
    requires HasAwaited(log, Target) && log <= more
    ensures HasAwaited(more, Target)
  {
    var k :| 0 <= k < |log| && Awaits(log[k], Target);
    assert more[k] == log[k];
  }

  /** The destructor of the sampler stops it before anything it measures has ended if and only if the
      run throws inside its loop, holding a sampler that was started and not stopped, and has not
      started a workload. The same holds of the counters, which may also be started when a run throws
      before its loop. */
  lemma CutShortExactly(o: Options, d: nat, startedAt: int, counters: bool, sampler: bool, start: CollectorInput,
                        inputs: seq<Input>, f: FinishInput)
    requires Paced(d, startedAt, inputs) && Run(o, startedAt, counters, sampler, start, inputs, f).Some?
    ensures var log := Run(o, startedAt, counters, sampler, start, inputs, f).value.log;
      var thrown := ThrownFrom(o, startedAt, counters, sampler, start, inputs);
      && (SamplerCutShort(log) <==>
            && thrown.Some? && thrown.value.sampler && thrown.value.collectorsStarted && !thrown.value.collectorsStopped
            && StartedWorkload !in thrown.value.log)
      && (CountersCutShort(log) <==>
            && thrown.Some? && thrown.value.counters && StartedCounters in thrown.value.log
            && StartedWorkload !in thrown.value.log)
  {
    hide Begin, Iterations, Finish, Unwind, Accounted, Tuned, Paced, SamplerCutShort, CountersCutShort, Finishing, Follows;
    var thrown := ThrownFrom(o, startedAt, counters, sampler, start, inputs);
    ThrownIsTuned(o, d, startedAt, counters, sampler, start, inputs);
    if thrown.Some? {
      UnwindCutsSampler(o, d, thrown.value);
      UnwindCutsCounters(o, d, thrown.value);
    } else {
      InitiallySound(o, d, startedAt, counters, sampler, start);
      var first := Begin(o, counters, sampler, start);
      IterationsSound(o, d, startedAt, startedAt, first.state, inputs);
      var r := Iterations(o, startedAt, first.state, inputs);
      FinishTidies(o, r.state, r.status, f);
      LateDrops(o, d, r.state, Finish(o, r.state, r.status, f).log);
    }
  }

  /** Such a run: a service is ready, the sampler starts, and the workload cannot be spawned. */
  lemma UnspawnedRun(service: Service, startedAt: int, start: CollectorInput, i: Input, f: FinishInput)
    requires Polls(i) && i.now - startedAt >= service.startupDelay && (service.readyTcp ==> i.tcpReady)
    requires i.spawnFails && !i.start.samplerFails
    ensures Run(Options(None, 5, true, Some(service)), startedAt, false, true, start, [i], f) ==
            Some(Threw(SpawnError, [StartedSampler] + [DroppedSampler]
                                   + [GroupKilled(Target)] + [PidKilled(Target)] + [Waited(Target)]))
  {
    var o := Options(None, 5, true, Some(service));
    var s := Initial(false, true);
    var t := Did(s, StartedSampler).(collectorsStarted := true);
    assert [] + [StartedSampler] == [StartedSampler];
    assert StartCollectors(o, s, i.start) == Continue(t);
    assert Iterate(o, startedAt, s, i) == Throw(t, SpawnError);
    assert Iterations(o, startedAt, s, [i]) == Throw(t, SpawnError);
    hide Iterations;
  }
}
