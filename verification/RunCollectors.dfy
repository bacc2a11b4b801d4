/** Collectors measure what they are meant to: in every run that gets to its report, each collector that is still
    held at the end was started exactly if there was something to measure, and was stopped before it was
    destroyed (src/process/process_runner.cpp:663-740, 763-793, 852-864). */
module RunCollectors {
  import opened Results
  import opened ProcessRunner
  import opened RunnerProtocol
  import opened RunGuarantees
  import opened RunOutcome
  import opened RunTeardown
  import opened RunDecisions

  // ----- what the log says of the collectors

  predicate Silent(a: Action) {
    !Collects(a) && !Drops(a) && !a.StartedWorkload?
  }

  /** From one log to another these were started and stopped, and nothing else. */
  predicate Marks(p: Past, q: Past, countersOn: bool, samplerOn: bool, countersOff: bool, samplerOff: bool) {
    && q.started == p.started
    && q.used.countersOn == (p.used.countersOn || countersOn)
    && q.used.samplerOn == (p.used.samplerOn || samplerOn)
    && q.used.countersOff == (p.used.countersOff || countersOff)
    && q.used.samplerOff == (p.used.samplerOff || samplerOff)
    && q.used.countersGone == p.used.countersGone && q.used.samplerGone == p.used.samplerGone
  }

  lemma DidMarks(s: Loop, a: Action)
    requires Silent(a) || Collects(a)
    ensures Marks(PastOf(s.log), PastOf(Did(s, a).log),
                  a == StartedCounters, a == StartedSampler, a == StoppedCounters, a == StoppedSampler)
  {
    PastOfMore(s.log, a);
    hide PastOf;
  }

  lemma MarksNothing(s: Loop)
    ensures Marks(PastOf(s.log), PastOf(s.log), false, false, false, false)
  {
    hide PastOf;
  }

  lemma StartCountersMarks(s: Loop, i: CollectorInput)
    ensures Marks(PastOf(s.log), PastOf(StartCounters(s, i).state.log), s.counters, false, false, false)
  {
    hide PastOf, Did, Marks;
    DidMarks(s, StartedCounters);
    MarksNothing(s);
  }

  lemma StartSamplerMarks(o: Options, s: Loop, i: CollectorInput)
    ensures Marks(PastOf(s.log), PastOf(StartSampler(o, s, i).state.log), false, s.sampler, false, false)
  {
    hide PastOf, Did, Marks;
    DidMarks(s, StartedSampler);
    MarksNothing(s);
  }

  lemma StopCountersMarks(o: Options, s: Loop, i: CollectorInput)
    ensures Marks(PastOf(s.log), PastOf(StopCounters(o, s, i).state.log), false, false, s.counters, false)
  {
    hide PastOf, Did, Marks;
    DidMarks(s, StoppedCounters);
    MarksNothing(s);
  }

  lemma StopSamplerMarks(o: Options, s: Loop, i: CollectorInput)
    ensures Marks(PastOf(s.log), PastOf(StopSampler(o, s, i).state.log), false, false, false, s.sampler)
  {
    hide PastOf, Did, Marks;
    DidMarks(s, StoppedSampler);
    MarksNothing(s);
  }

  lemma StartMarks(o: Options, s: Loop, i: CollectorInput)
    requires StartCollectors(o, s, i).Continue?
    ensures Marks(PastOf(s.log), PastOf(StartCollectors(o, s, i).state.log), s.counters, s.sampler, false, false)
  {
    hide PastOf, StartCounters, StartSampler;
    var a := StartCounters(s, i).state;
    StartCountersMarks(s, i);
    CountersOn(s, i);
    StartSamplerMarks(o, a, i);
  }

  lemma StopMarks(o: Options, s: Loop, i: CollectorInput)
    requires StopCollectors(o, s, i).Continue?
    ensures var stops := s.collectorsStarted && !s.collectorsStopped;
      Marks(PastOf(s.log), PastOf(StopCollectors(o, s, i).state.log), false, false, stops && s.counters, stops && s.sampler)
  {
    hide PastOf, StopCounters, StopSampler;
    MarksNothing(s);
    var a := StopCounters(o, s, i).state;
    StopCountersMarks(o, s, i);
    CountersOff(o, s, i);
    StopSamplerMarks(o, a, i);
  }

  // ----- the collectors in the loop

  /** Collectors have been started as a pair exactly if there is something to measure, then those still held have been
      started, and after they have been stopped as a pair those still held have been stopped. */
  predicate Attended(o: Options, s: Loop) {
    var p := PastOf(s.log);
    && (s.collectorsStarted <==> o.service.None? || p.started)
    && (s.collectorsStarted ==> (s.counters ==> p.used.countersOn) && (s.sampler ==> p.used.samplerOn))
    && (!s.collectorsStarted ==> !p.used.countersOn && !p.used.samplerOn)
    && (s.collectorsStopped ==> (s.counters ==> p.used.countersOff) && (s.sampler ==> p.used.samplerOff))
    && (o.service.Some? && s.collectorsStopped ==> p.started)
    && (s.workload ==> p.started)
    && p.used.Kept()
  }

  /** Nothing about the collectors changes. */
  predicate Uncollected(s: Loop, t: Loop) {
    SameHold(s, t) && (t.workload ==> s.workload) && Marks(PastOf(s.log), PastOf(t.log), false, false, false, false)
  }

  lemma UncollectedAttended(o: Options, s: Loop, t: Loop)
    requires Attended(o, s) && Uncollected(s, t)
    ensures Attended(o, t)
  {
    hide PastOf;
  }

  lemma UncollectedInTurn(s: Loop, t: Loop, u: Loop)
    requires Uncollected(s, t) && Uncollected(t, u)
    ensures Uncollected(s, u)
  {
    hide PastOf;
  }

  lemma UncollectedFlags(s: Loop, t: Loop)
    requires SameHold(s, t) && t.workload == s.workload && t.log == s.log
    ensures Uncollected(s, t)
  {
    hide PastOf;
  }

  lemma DidUncollected(s: Loop, a: Action)
    requires Silent(a)
    ensures Uncollected(s, Did(s, a))
  {
    hide PastOf;
    DidMarks(s, a);
  }

  lemma GrantUncollected(s: Loop, until: int)
    ensures Uncollected(s, Grant(s, until))
  {
    hide Uncollected;
    DidUncollected(s, Deadline(until));
    UncollectedFlags(Did(s, Deadline(until)), Grant(s, until));
    UncollectedInTurn(s, Did(s, Deadline(until)), Grant(s, until));
  }

  lemma TerminateUncollected(s: Loop, i: Input, grace: nat)
    ensures Uncollected(s, Terminate(s, i, grace).state)
  {
    hide Uncollected, Did, Grant;
    var a := s.(stopping := true);
    UncollectedFlags(s, a);
    var b := Did(a, Sent(Target, Term, i.now));
    DidUncollected(a, Sent(Target, Term, i.now));
    GrantUncollected(b, i.now + grace);
    UncollectedInTurn(s, a, b);
    UncollectedInTurn(s, b, Grant(b, i.now + grace));
  }

  lemma SignalAllUncollected(s: Loop, i: Input, signal: Signal)
    ensures Uncollected(s, SignalAll(s, i, signal).state)
  {
    hide Uncollected, Did;
    UncollectedFlags(s, s);
    var a := Did(s, Sent(Target, signal, i.now));
    DidUncollected(s, Sent(Target, signal, i.now));
    DidUncollected(a, Sent(Workload, signal, i.now));
    UncollectedInTurn(s, a, Did(a, Sent(Workload, signal, i.now)));
  }

  lemma SignalUncollected(o: Options, s: Loop, flagged: Loop, i: Input, signal: Signal)
    requires Uncollected(s, flagged)
    ensures Uncollected(s, SignalWithGrace(o, flagged, i, signal).state)
  {
    hide Uncollected, SignalAll, Grant;
    var a := SignalAll(flagged, i, signal).state;
    SignalAllUncollected(flagged, i, signal);
    UncollectedInTurn(s, flagged, a);
    GrantUncollected(a, i.now + o.terminationGrace);
    UncollectedInTurn(s, a, Grant(a, i.now + o.terminationGrace));
  }

  lemma KillUncollected(s: Loop, i: Input)
    ensures Uncollected(s, KillAll(s, i).state)
  {
    hide Uncollected, SignalAll;
    var a := SignalAll(s, i, Kill).state;
    SignalAllUncollected(s, i, Kill);
    UncollectedFlags(a, a.(sentKill := true));
    UncollectedInTurn(s, a, a.(sentKill := true));
  }

  lemma StopPhaseUncollected(o: Options, startedAt: int, s: Loop, i: Input)
    ensures Uncollected(s, StopPhase(o, startedAt, s, i).state)
  {
    hide Uncollected, SignalWithGrace, KillAll;
    UncollectedFlags(s, s);
    UncollectedFlags(s, s.(interrupted := true, stopping := true));
    UncollectedFlags(s, s.(timedOut := true, stopping := true));
    SignalUncollected(o, s, s.(interrupted := true, stopping := true), i, Received(i.receivedSignal));
    SignalUncollected(o, s, s.(timedOut := true, stopping := true), i, Term);
    KillUncollected(s, i);
  }

  lemma StoppedAttended(o: Options, s: Loop, i: CollectorInput)
    requires Attended(o, s) && StopCollectors(o, s, i).Continue?
    ensures var t := StopCollectors(o, s, i).state;
      Attended(o, t) && (t.collectorsStarted ==> t.collectorsStopped) && t.workload == s.workload
  {
    hide PastOf, StopCollectors;
    StopMarks(o, s, i);
    EndTable(o, s, i);
  }

  lemma CollectUncollected(s: Loop, status: Status)
    ensures Uncollected(s, CollectWorkload(s, status))
  {
    hide Uncollected, Did;
    var a := Did(s, Reaped(Workload, status));
    var b := Did(a, GroupKilled(Workload));
    DidUncollected(s, Reaped(Workload, status));
    DidUncollected(a, GroupKilled(Workload));
    UncollectedInTurn(s, a, b);
    ReleasedWorkload(b);
    UncollectedInTurn(s, b, b.(workload := false));
  }

  lemma ReleasedWorkload(s: Loop)
    ensures Uncollected(s, s.(workload := false))
  {
    hide PastOf;
  }

  lemma EndWorkloadAttended(o: Options, s: Loop, i: Input, status: Status)
    requires Attended(o, s) && o.service.Some? && EndWorkload(o, s, i, status).Continue?
    ensures Attended(o, EndWorkload(o, s, i, status).state)
  {
    hide Attended, Uncollected, CollectWorkload, StopCollectors, Judge, Terminate;
    var t := CollectWorkload(s, status);
    CollectUncollected(s, status);
    UncollectedAttended(o, s, t);
    EndTable(o, t, i.stop);
    StoppedAttended(o, t, i.stop);
    var a := StopCollectors(o, t, i.stop).state;
    var b := Judge(a, status);
    JudgeAlike(a, status);
    UncollectedFlags(a, b);
    UncollectedAttended(o, a, b);
    TerminateUncollected(b, i, o.service.value.shutdownGrace);
    UncollectedAttended(o, b, Terminate(b, i, o.service.value.shutdownGrace).state);
  }

  lemma WorkloadPhaseAttended(o: Options, s: Loop, i: Input)
    requires Attended(o, s) && WorkloadPhase(o, s, i).Continue?
    ensures Attended(o, WorkloadPhase(o, s, i).state)
  {
    hide Attended, EndWorkload;
    if s.workload && o.service.Some? && i.workloadWait.Ended? {
      EndWorkloadAttended(o, s, i, i.workloadWait.status);
    }
  }

  lemma LaunchedAttended(o: Options, s: Loop)
    requires s.collectorsStarted && !s.collectorsStopped && PastOf(s.log).used.Kept()
    requires var p := PastOf(s.log); (s.counters ==> p.used.countersOn) && (s.sampler ==> p.used.samplerOn)
    ensures Attended(o, Did(s, StartedWorkload).(workload := true))
  {
    PastOfMore(s.log, StartedWorkload);
    hide PastOf;
  }

  lemma LaunchAttended(o: Options, s: Loop, i: Input)
    requires Attended(o, s) && !s.collectorsStopped && BeginWorkload(o, s, i).Continue?
    ensures Attended(o, BeginWorkload(o, s, i).state)
  {
    hide PastOf, StartCollectors;
    StartTable(o, s, i.start);
    StartMarks(o, s, i.start);
    LaunchedAttended(o, StartCollectors(o, s, i.start).state);
  }

  lemma WaitingUnstarted(o: Options, d: nat, low: int, now: int, s: Loop)
    requires Follows(o, d, low, now, s) && o.service.Some? && !s.workload && !s.stopping && Attended(o, s)
    ensures !s.collectorsStopped
  {
    hide PastOf, Legal, Metered;
  }

  lemma ServicePhaseAttended(o: Options, d: nat, startedAt: int, low: int, now: int, s: Loop, i: Input)
    requires Follows(o, d, low, now, s) && Attended(o, s) && ServicePhase(o, startedAt, s, i).Continue?
    ensures Attended(o, ServicePhase(o, startedAt, s, i).state)
  {
    hide Follows, Attended, Uncollected, BeginWorkload, Terminate;
    if o.service.Some? && !s.workload && !s.stopping {
      WaitingUnstarted(o, d, low, now, s);
      if BeginWorkload(o, s, i).Continue? {
        LaunchAttended(o, s, i);
      }
      var late := s.(failure := Some(ReadinessTimedOut));
      UncollectedFlags(s, late);
      UncollectedAttended(o, s, late);
      TerminateUncollected(late, i, o.service.value.shutdownGrace);
      UncollectedAttended(o, late, Terminate(late, i, o.service.value.shutdownGrace).state);
    }
  }

  lemma IterateAttended(o: Options, d: nat, startedAt: int, last: int, s: Loop, i: Input)
    requires Follows(o, d, last, last, s) && Attended(o, s) && !Iterate(o, startedAt, s, i).Throw?
    ensures Attended(o, Iterate(o, startedAt, s, i).state)
  {
    hide Attended, Uncollected, Follows, ServicePhase, WorkloadPhase, StopPhase, Did;
    if i.wait.Ended? {
      DidUncollected(s, Reaped(Target, i.wait.status));
      UncollectedAttended(o, s, Did(s, Reaped(Target, i.wait.status)));
    } else {
      ServicePhaseStays(o, startedAt, s, i);
      ServicePhaseAttended(o, d, startedAt, last, last, s, i);
      var a := ServicePhase(o, startedAt, s, i).state;
      WorkloadPhaseStays(o, a, i);
      WorkloadPhaseAttended(o, a, i);
      var b := WorkloadPhase(o, a, i).state;
      StopPhaseUncollected(o, startedAt, b, i);
      UncollectedAttended(o, b, StopPhase(o, startedAt, b, i).state);
    }
  }

  lemma {:induction false} IterationsAttended(o: Options, d: nat, startedAt: int, last: int, s: Loop, inputs: seq<Input>)
    requires Follows(o, d, last, last, s) && Attended(o, s) && Paced(d, last, inputs)
    requires !Iterations(o, startedAt, s, inputs).Throw?
    ensures Attended(o, Iterations(o, startedAt, s, inputs).state)
    decreases |inputs|
  {
    hide Attended, Follows, Iterate;
    if inputs != [] {
      IterateAttended(o, d, startedAt, last, s, inputs[0]);
      var r := Iterate(o, startedAt, s, inputs[0]);
      if r.Continue? {
        IterateSound(o, d, startedAt, last, s, inputs[0]);
        IterateContinues(o, startedAt, s, inputs[0]);
        IterationsAttended(o, d, startedAt, inputs[0].now, r.state, inputs[1..]);
      }
    }
  }

  lemma InitiallyAttended(o: Options, counters: bool, sampler: bool, start: CollectorInput)
    requires Begin(o, counters, sampler, start).Continue?
    ensures Attended(o, Begin(o, counters, sampler, start).state)
  {
    hide StartCollectors;
    var s := Initial(counters, sampler);
    if o.service.None? {
      StartTable(o, s, start);
      StartMarks(o, s, start);
    }
  }

  // ----- after the loop

  lemma DestroyUncollected(s: Loop, process: Process)
    ensures Uncollected(s, Destroy(s, process))
  {
    hide Uncollected, Did;
    var a := Did(s, GroupKilled(process));
    var b := Did(a, PidKilled(process));
    DidUncollected(s, GroupKilled(process));
    DidUncollected(a, PidKilled(process));
    DidUncollected(b, Waited(process));
    UncollectedInTurn(s, a, b);
    UncollectedInTurn(s, b, Did(b, Waited(process)));
  }

  lemma BlameUncollected(s: Loop, failure: Lifecycle)
    ensures Uncollected(s, Blame(s, failure))
  {
    hide Uncollected, Blame;
    BlameAlike(s, failure);
    UncollectedFlags(s, Blame(s, failure));
  }

  lemma DropWorkloadUncollected(s: Loop)
    ensures Uncollected(s, DropWorkload(s))
  {
    hide Uncollected, Blame, Destroy;
    UncollectedFlags(s, s);
    var a := Blame(s, ServiceDiedDuringWorkload);
    var b := Destroy(a, Workload);
    BlameUncollected(s, ServiceDiedDuringWorkload);
    DestroyUncollected(a, Workload);
    UncollectedInTurn(s, a, b);
    ReleasedWorkload(b);
    UncollectedInTurn(s, b, b.(workload := false));
  }

  lemma GoneUncollected(o: Options, s: Loop)
    ensures Uncollected(s, ServiceGone(o, s))
  {
    hide Uncollected, Blame, DropWorkload;
    var a := DropWorkload(s);
    DropWorkloadUncollected(s);
    BlameUncollected(a, ServiceDiedBeforeWorkload);
    UncollectedInTurn(s, a, Blame(a, ServiceDiedBeforeWorkload));
  }

  /** The last thing that happens to the collectors. */
  lemma DropMarks(s: Loop)
    requires PastOf(s.log).used.Kept()
    ensures var p, q := PastOf(s.log), PastOf(DropCollectors(s).log);
      && q.started == p.started
      && q.used.countersOn == p.used.countersOn && q.used.samplerOn == p.used.samplerOn
      && q.used.countersOff == p.used.countersOff && q.used.samplerOff == p.used.samplerOff
      && q.used.countersGone == s.counters && q.used.samplerGone == s.sampler
  {
    PastOfMore(s.log, DroppedSampler);
    var a := if s.sampler then Did(s, DroppedSampler) else s;
    PastOfMore(a.log, DroppedCounters);
    hide PastOf;
  }

  /** There was something to measure: the target itself or a workload. */
  predicate Measures(o: Options, log: seq<Action>) {
    o.service.None? || StartedWorkload in log
  }

  /** A collector that is destroyed at the end measured if and only if there was something to measure, and then it was
      stopped first. */
  predicate Collected(o: Options, log: seq<Action>) {
    && (DroppedSampler in log ==> (StartedSampler in log <==> Measures(o, log)))
    && (DroppedSampler in log && StartedSampler in log ==> StoppedSampler in log)
    && (DroppedCounters in log ==> (StartedCounters in log <==> Measures(o, log)))
    && (DroppedCounters in log && StartedCounters in log ==> StoppedCounters in log)
  }

  lemma EndsCollected(o: Options, s: Loop)
    requires Attended(o, s) && (s.collectorsStarted ==> s.collectorsStopped)
    ensures Collected(o, DropCollectors(s).log)
  {
    hide PastOf, DropCollectors;
    DropMarks(s);
    MarksAre(DropCollectors(s).log);
  }

  lemma FinishCollected(o: Options, s: Loop, status: Status, f: FinishInput)
    requires Attended(o, s) && Finish(o, s, status, f).Returned?
    ensures Collected(o, Finish(o, s, status, f).log)
  {
    hide Attended, Uncollected, ServiceGone, StopCollectors, DropCollectors, Report, Release, Destroy, Collected;
    var a := ServiceGone(o, s);
    GoneUncollected(o, s);
    UncollectedAttended(o, s, a);
    EndTable(o, a, f.stop);
    StoppedAttended(o, a, f.stop);
    var b := StopCollectors(o, a, f.stop).state;
    ReleaseUncollected(b);
    UncollectedAttended(o, b, Release(b, Target));
    EndsCollected(o, Release(b, Target));
  }

  lemma ReleaseUncollected(s: Loop)
    ensures Uncollected(s, Release(s, Target)) && SameHold(s, Release(s, Target))
  {
    DidUncollected(s, GroupKilled(Target));
    hide Marks, PastOf;
  }

  /** Every run that returns normally. */
  lemma RunCollected(o: Options, d: nat, startedAt: int, counters: bool, sampler: bool, start: CollectorInput,
                     inputs: seq<Input>, f: FinishInput)
    requires Paced(d, startedAt, inputs)
    ensures var run := Run(o, startedAt, counters, sampler, start, inputs, f);
      run.Some? && run.value.Returned? ==> Collected(o, run.value.log)
  {
    hide Begin, Iterations, Finish, Collected, Attended, Follows, Paced;
    var first := Begin(o, counters, sampler, start);
    InitiallySound(o, d, startedAt, counters, sampler, start);
    BeginContinues(o, counters, sampler, start);
    if first.Continue? {
      InitiallyAttended(o, counters, sampler, start);
      var r := Iterations(o, startedAt, first.state, inputs);
      if r.Left? {
        IterationsAttended(o, d, startedAt, startedAt, first.state, inputs);
        if Finish(o, r.state, r.status, f).Returned? {
          FinishCollected(o, r.state, r.status, f);
        }
      }
    }
  }
}
