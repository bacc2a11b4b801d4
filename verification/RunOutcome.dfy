/** What a run may end with (src/process/process_runner.cpp:760-843, 852-946). */
module RunOutcome {
  import opened Results
  import opened ProcessRunner
  import opened RunnerProtocol
  import opened RunGuarantees

  /** The status with which the loop saw the workload end, if it did. */
  function ExitSeen(s: Loop): Option<Status> {
    PastOf(s.log).seen
  }

  /** No exit was logged before the workload was reaped. */
  lemma NoneLoggedBefore(o: Options, d: nat, log: seq<Action>, status: Status)
    requires log != [] && Legal(o, d, log)
    requires log[|log| - 1].Reaped? && log[|log| - 1].process == Workload
    ensures Reaped(Workload, status) !in log[..|log| - 1]
  {
    hide Legal;
    forall k | 0 <= k < |log| - 1
      ensures log[k] != Reaped(Workload, status)
    {
      NeverBoth(o, d, log, k, |log| - 1);
    }
  }

  lemma {:induction false} ExitSeenIsLogged(o: Options, d: nat, log: seq<Action>, status: Status)
    requires Legal(o, d, log)
    ensures PastOf(log).seen == Some(status) <==> Reaped(Workload, status) in log
  {
    if log != [] {
      var front, a := log[..|log| - 1], log[|log| - 1];
      assert PastOf(log) == After(PastOf(front), a) && Legal(o, d, front);
      hide Legal, PastOf, Allowed, After;
      assert log == front + [a];
      ExitSeenIsLogged(o, d, front, status);
      SeenAfter(PastOf(front), a);
      if a.Reaped? && a.process == Workload {
        NoneLoggedBefore(o, d, log, status);
      }
    }
  }

  lemma SeenAfter(p: Past, a: Action)
    ensures After(p, a).seen == if a.Reaped? && a.process == Workload then Some(a.status) else p.seen
  {
  }

  lemma SeenMore(s: Loop, a: Action)
    ensures ExitSeen(Did(s, a)) == if a.Reaped? && a.process == Workload then Some(a.status) else ExitSeen(s)
  {
    hide PastOf;
    PastOfMore(s.log, a);
  }

  // ----- what the flags say, between any two iterations

  /** No workload exit has been seen: nothing is complete, and the only failure can be that the
      service was not ready in time, which sets no flag. */
  predicate Pending(s: Loop) {
    && !s.workloadCompleted
    && (s.failure.Some? ==>
          && s.failure == Some(ReadinessTimedOut)
          && s.stopping && !s.workload && !s.interrupted && !s.timedOut)
  }

  /** The workload has ended with this status: complete if it was 0, else a failure, whatever the
      flags are. */
  predicate Decided(s: Loop, status: Status) {
    && s.stopping
    && !s.workload
    && s.failure == WorkloadVerdict(status)
    && s.workloadCompleted == (status == ExitStatus(0))
  }

  predicate Consistent(o: Options, s: Loop) {
    && !(s.interrupted && s.timedOut)
    && (s.interrupted || s.timedOut ==> s.stopping)
    && s.managedStop == s.workloadCompleted
    && (s.workload ==> o.service.Some?)
    && (if ExitSeen(s).Some? then Decided(s, ExitSeen(s).value) else Pending(s))
    && (o.service.None? ==> ExitSeen(s).None? && s.failure.None?)
  }

  predicate StaysConsistent(o: Options, r: StepResult) {
    !r.Throw? ==> Consistent(o, r.state)
  }

  /** Nothing that matters to the outcome has changed. */
  predicate Alike(s: Loop, t: Loop) {
    && t.timedOut == s.timedOut
    && t.interrupted == s.interrupted
    && t.workload == s.workload
    && t.workloadCompleted == s.workloadCompleted
    && t.managedStop == s.managedStop
    && t.failure == s.failure
    && (s.stopping ==> t.stopping)
    && ExitSeen(t) == ExitSeen(s)
  }

  lemma AlikeConsistent(o: Options, s: Loop, t: Loop)
    requires Consistent(o, s) && Alike(s, t)
    ensures Consistent(o, t)
  {
    hide ExitSeen;
  }

  lemma AlikeInTurn(s: Loop, t: Loop, u: Loop)
    requires Alike(s, t) && Alike(t, u)
    ensures Alike(s, u)
  {
    hide ExitSeen;
  }

  lemma DidAlike(s: Loop, a: Action)
    requires !(a.Reaped? && a.process == Workload)
    ensures Alike(s, Did(s, a))
  {
    hide ExitSeen;
    SeenMore(s, a);
  }

  lemma StandingAlike(s: Loop, t: Loop)
    requires SameStanding(s, t) && s.log == t.log
    ensures Alike(s, t)
  {
  }

  lemma CountersAlike(s: Loop, i: CollectorInput)
    ensures Alike(s, StartCounters(s, i).state)
  {
    hide ExitSeen;
    if s.counters {
      DidAlike(s, StartedCounters);
    }
  }

  lemma SamplerAlike(o: Options, s: Loop, i: CollectorInput)
    ensures Alike(s, StartSampler(o, s, i).state)
  {
    hide Alike;
    if s.sampler {
      var t := Did(s, StartedSampler);
      DidAlike(s, StartedSampler);
      StandingAlike(t, t.(sampler := false));
      AlikeInTurn(s, t, t.(sampler := false));
    } else {
      StandingAlike(s, s);
    }
  }

  lemma StartingAlike(o: Options, s: Loop, i: CollectorInput)
    ensures Alike(s, StartCollectors(o, s, i).state)
  {
    hide Alike, StartCounters, StartSampler;
    var a := StartCounters(s, i);
    CountersAlike(s, i);
    if a.Throw? {
      assert StartCollectors(o, s, i) == a;
    } else {
      var b := StartSampler(o, a.state, i);
      SamplerAlike(o, a.state, i);
      StandingAlike(b.state, b.state.(collectorsStarted := true));
      AlikeInTurn(s, a.state, b.state);
      AlikeInTurn(s, b.state, b.state.(collectorsStarted := true));
    }
  }

  lemma StopCountersAlike(o: Options, s: Loop, i: CollectorInput)
    ensures Alike(s, StopCounters(o, s, i).state)
  {
    hide Alike;
    StandingAlike(s, s);
    var t := Did(s, StoppedCounters);
    DidAlike(s, StoppedCounters);
    StandingAlike(t, t.(counters := false));
    AlikeInTurn(s, t, t.(counters := false));
  }

  lemma StopSamplerAlike(o: Options, s: Loop, i: CollectorInput)
    ensures Alike(s, StopSampler(o, s, i).state)
  {
    hide Alike;
    StandingAlike(s, s);
    var t := Did(s, StoppedSampler);
    DidAlike(s, StoppedSampler);
    StandingAlike(t, t.(sampler := false));
    AlikeInTurn(s, t, t.(sampler := false));
  }

  lemma StoppingAlike(o: Options, s: Loop, i: CollectorInput)
    ensures Alike(s, StopCollectors(o, s, i).state) && !StopCollectors(o, s, i).Left?
  {
    hide Alike, StopCounters, StopSampler;
    StandingAlike(s, s);
    if s.collectorsStarted && !s.collectorsStopped {
      var a := StopCounters(o, s, i);
      StopCountersAlike(o, s, i);
      NeverLeft(o, s, i);
      if a.Throw? {
        assert StopCollectors(o, s, i) == a;
      } else {
        var b := StopSampler(o, a.state, i);
        StopSamplerAlike(o, a.state, i);
        NeverLeft(o, a.state, i);
        StandingAlike(b.state, b.state.(collectorsStopped := true));
        AlikeInTurn(s, a.state, b.state);
        AlikeInTurn(s, b.state, b.state.(collectorsStopped := true));
      }
    }
  }

  lemma TerminateAlike(s: Loop, i: Input, grace: nat)
    requires s.stopping
    ensures Alike(s, Terminate(s, i, grace).state)
  {
    hide Alike, Grant, Did;
    assert s.(stopping := true) == s;
    StandingAlike(s, s);
    if !i.termFails {
      var b := Did(s, Sent(Target, Term, i.now));
      DidAlike(s, Sent(Target, Term, i.now));
      GrantAlike(b, i.now + grace);
      AlikeInTurn(s, b, Grant(b, i.now + grace));
    }
  }

  lemma GrantAlike(s: Loop, until: int)
    ensures Alike(s, Grant(s, until))
  {
    assert ExitSeen(Grant(s, until)) == ExitSeen(Did(s, Deadline(until)));
    hide ExitSeen;
    SeenMore(s, Deadline(until));
  }

  lemma SignalAllAlike(s: Loop, i: Input, signal: Signal)
    ensures Alike(s, SignalAll(s, i, signal).state)
  {
    hide Alike;
    if i.stopSignalFails {
      StandingAlike(s, s);
    } else {
      var a := Did(s, Sent(Target, signal, i.now));
      DidAlike(s, Sent(Target, signal, i.now));
      DidAlike(a, Sent(Workload, signal, i.now));
      AlikeInTurn(s, a, Did(a, Sent(Workload, signal, i.now)));
    }
  }

  // ----- the phases

  lemma TerminateFlags(s: Loop, i: Input, grace: nat)
    ensures Terminate(s, i, grace) == Terminate(s.(stopping := true), i, grace)
  {
  }

  lemma WorkloadFlagUnseen(s: Loop, workload: bool)
    ensures ExitSeen(s.(workload := workload)) == ExitSeen(s)
  {
  }

  lemma LaunchConsistent(o: Options, s: Loop, i: Input)
    requires Consistent(o, s) && o.service.Some? && !s.workload && s.failure.None? && !s.stopping
    ensures StaysConsistent(o, BeginWorkload(o, s, i))
  {
    var a := StartCollectors(o, s, i.start);
    WorkloadFlagUnseen(Did(a.state, StartedWorkload), true);
    hide ExitSeen;
    StartingAlike(o, s, i.start);
    if !a.Throw? && !i.spawnFails {
      DidAlike(a.state, StartedWorkload);
    }
  }

  lemma AbandonConsistent(o: Options, s: Loop, i: Input, grace: nat)
    requires Consistent(o, s) && o.service.Some? && !s.stopping && !s.workload
    ensures StaysConsistent(o, AbandonService(s, i, grace))
  {
    hide Alike, Terminate;
    var t := s.(failure := Some(ReadinessTimedOut));
    assert ExitSeen(t.(stopping := true)) == ExitSeen(s);
    TerminateFlags(t, i, grace);
    TerminateAlike(t.(stopping := true), i, grace);
    AlikeConsistent(o, t.(stopping := true), Terminate(t, i, grace).state);
  }

  lemma ServicePhaseConsistent(o: Options, startedAt: int, s: Loop, i: Input)
    requires Consistent(o, s)
    ensures StaysConsistent(o, ServicePhase(o, startedAt, s, i))
  {
    hide ExitSeen, Consistent, BeginWorkload, AbandonService;
    if o.service.Some? && !s.workload && s.failure.None? && !s.stopping {
      LaunchConsistent(o, s, i);
      AbandonConsistent(o, s, i, o.service.value.shutdownGrace);
    }
  }

  lemma JudgeDecides(s: Loop, status: Status)
    requires !s.workload && !s.workloadCompleted && s.failure.None?
    ensures Decided(Judge(s, status).(stopping := true), status)
  {
    match WorkloadVerdict(status)
    case None => assert Judge(s, status) == s.(workloadCompleted := true, managedStop := true);
    case Some(lifecycle) => assert Judge(s, status) == s.(failure := Some(lifecycle));
  }

  lemma CollectedUndecided(s: Loop, status: Status)
    ensures var t := CollectWorkload(s, status);
      && !t.workload
      && t.workloadCompleted == s.workloadCompleted
      && t.managedStop == s.managedStop
      && t.failure == s.failure
      && t.interrupted == s.interrupted && t.timedOut == s.timedOut
      && ExitSeen(t) == Some(status)
  {
    var a := Did(s, Reaped(Workload, status));
    WorkloadFlagUnseen(Did(a, GroupKilled(Workload)), false);
    hide ExitSeen;
    SeenMore(s, Reaped(Workload, status));
    SeenMore(a, GroupKilled(Workload));
  }

  lemma EndWorkloadConsistent(o: Options, s: Loop, i: Input, status: Status)
    requires Consistent(o, s) && s.workload && o.service.Some?
    ensures StaysConsistent(o, EndWorkload(o, s, i, status))
  {
    var t := CollectWorkload(s, status);
    CollectedUndecided(s, status);
    hide ExitSeen, Judge, StopCollectors, Terminate, CollectWorkload;
    var a := StopCollectors(o, t, i.stop);
    StoppingAlike(o, t, i.stop);
    if a.Continue? {
      var b := Judge(a.state, status);
      JudgeDecides(a.state, status);
      JudgeAlike(a.state, status);
      JudgeConsistent(o, a.state, status);
      TerminateFlags(b, i, o.service.value.shutdownGrace);
      TerminateAlike(b.(stopping := true), i, o.service.value.shutdownGrace);
      AlikeConsistent(o, b.(stopping := true), Terminate(b, i, o.service.value.shutdownGrace).state);
    }
  }

  lemma JudgeSeen(s: Loop, status: Status)
    ensures ExitSeen(Judge(s, status).(stopping := true)) == ExitSeen(s)
    ensures s.managedStop == s.workloadCompleted ==> Judge(s, status).managedStop == Judge(s, status).workloadCompleted
  {
    JudgeAlike(s, status);
    hide PastOf;
    match WorkloadVerdict(status)
    case None => assert Judge(s, status) == s.(workloadCompleted := true, managedStop := true);
    case Some(lifecycle) => assert Judge(s, status) == s.(failure := Some(lifecycle));
  }

  lemma JudgeConsistent(o: Options, s: Loop, status: Status)
    requires !s.workload && !s.workloadCompleted && !s.managedStop && s.failure.None? && o.service.Some?
    requires ExitSeen(s) == Some(status) && !(s.interrupted && s.timedOut)
    ensures Consistent(o, Judge(s, status).(stopping := true))
  {
    hide Judge, ExitSeen;
    JudgeDecides(s, status);
    JudgeSeen(s, status);
    JudgeKeepsFlags(s, status);
  }

  lemma WorkloadPhaseConsistent(o: Options, s: Loop, i: Input)
    requires Consistent(o, s)
    ensures StaysConsistent(o, WorkloadPhase(o, s, i))
  {
    hide Consistent, EndWorkload;
    if s.workload && o.service.Some? && i.workloadWait.Ended? {
      EndWorkloadConsistent(o, s, i, i.workloadWait.status);
    }
  }

  lemma GraceConsistent(o: Options, flagged: Loop, i: Input, signal: Signal)
    requires Consistent(o, flagged)
    ensures StaysConsistent(o, SignalWithGrace(o, flagged, i, signal))
  {
    hide Alike, Consistent, SignalAll, Grant;
    var a := SignalAll(flagged, i, signal);
    SignalAllAlike(flagged, i, signal);
    GrantAlike(a.state, i.now + o.terminationGrace);
    AlikeInTurn(flagged, a.state, Grant(a.state, i.now + o.terminationGrace));
    AlikeConsistent(o, flagged, Grant(a.state, i.now + o.terminationGrace));
  }

  lemma KillConsistent(o: Options, s: Loop, i: Input)
    requires Consistent(o, s)
    ensures StaysConsistent(o, KillAll(s, i))
  {
    var a := SignalAll(s, i, Kill);
    assert ExitSeen(a.state.(sentKill := true)) == ExitSeen(a.state);
    hide Consistent, SignalAll, ExitSeen;
    SignalAllAlike(s, i, Kill);
    AlikeConsistent(o, s, a.state.(sentKill := true));
  }

  /** A flag is raised only when nothing is being stopped yet. */
  lemma FlaggedConsistent(o: Options, s: Loop)
    requires Consistent(o, s) && !s.stopping
    ensures Consistent(o, s.(interrupted := true, stopping := true))
    ensures Consistent(o, s.(timedOut := true, stopping := true))
  {
  }

  lemma StopPhaseConsistent(o: Options, startedAt: int, s: Loop, i: Input)
    requires Consistent(o, s)
    ensures StaysConsistent(o, StopPhase(o, startedAt, s, i))
  {
    hide Consistent, SignalWithGrace, KillAll;
    if !s.stopping {
      FlaggedConsistent(o, s);
      GraceConsistent(o, s.(interrupted := true, stopping := true), i, Received(i.receivedSignal));
      GraceConsistent(o, s.(timedOut := true, stopping := true), i, Term);
    } else {
      KillConsistent(o, s, i);
    }
  }

  lemma IterateConsistent(o: Options, startedAt: int, s: Loop, i: Input)
    requires Consistent(o, s)
    ensures StaysConsistent(o, Iterate(o, startedAt, s, i))
  {
    hide Consistent, ServicePhase, WorkloadPhase, StopPhase, Alike;
    if i.wait.Ended? {
      DidAlike(s, Reaped(Target, i.wait.status));
      AlikeConsistent(o, s, Did(s, Reaped(Target, i.wait.status)));
    } else {
      ServicePhaseConsistent(o, startedAt, s, i);
      var a := ServicePhase(o, startedAt, s, i);
      if !a.Throw? {
        WorkloadPhaseConsistent(o, a.state, i);
        var b := WorkloadPhase(o, a.state, i);
        if !b.Throw? {
          StopPhaseConsistent(o, startedAt, b.state, i);
        }
      }
    }
  }

  lemma {:induction false} IterationsConsistent(o: Options, startedAt: int, s: Loop, inputs: seq<Input>)
    requires Consistent(o, s)
    ensures StaysConsistent(o, Iterations(o, startedAt, s, inputs))
    decreases |inputs|
  {
    hide Consistent, Iterate;
    if inputs != [] {
      IterateConsistent(o, startedAt, s, inputs[0]);
      var r := Iterate(o, startedAt, s, inputs[0]);
      if r.Continue? {
        IterationsConsistent(o, startedAt, r.state, inputs[1..]);
      }
    }
  }

  lemma BeginConsistent(o: Options, counters: bool, sampler: bool, start: CollectorInput)
    ensures StaysConsistent(o, Begin(o, counters, sampler, start))
  {
    hide Alike;
    var s := Initial(counters, sampler);
    StartingAlike(o, s, start);
    AlikeConsistent(o, s, StartCollectors(o, s, start).state);
  }

  // ----- flags are raised at most once

  predicate SameFlags(s: Loop, t: Loop) {
    t.stopping && t.interrupted == s.interrupted && t.timedOut == s.timedOut
  }

  lemma JudgeKeepsFlags(s: Loop, status: Status)
    ensures Judge(s, status).interrupted == s.interrupted && Judge(s, status).timedOut == s.timedOut
  {
    match WorkloadVerdict(status)
    case None => assert Judge(s, status) == s.(workloadCompleted := true, managedStop := true);
    case Some(lifecycle) => assert Judge(s, status) == s.(failure := Some(lifecycle));
  }

  lemma EndWorkloadKeepsFlags(o: Options, s: Loop, i: Input, status: Status)
    requires o.service.Some?
    ensures !EndWorkload(o, s, i, status).Throw? ==> SameFlags(s, EndWorkload(o, s, i, status).state)
  {
    var t := CollectWorkload(s, status);
    CollectedUndecided(s, status);
    hide Judge, StopCollectors, Terminate, ExitSeen, CollectWorkload;
    var a := StopCollectors(o, t, i.stop);
    StoppingAlike(o, t, i.stop);
    var b := Judge(a.state, status);
    JudgeKeepsFlags(a.state, status);
    TerminateFlags(b, i, o.service.value.shutdownGrace);
    TerminateAlike(b.(stopping := true), i, o.service.value.shutdownGrace);
  }

  lemma KillKeepsFlags(s: Loop, i: Input)
    requires s.stopping
    ensures SameFlags(s, KillAll(s, i).state)
  {
    hide SignalAll, ExitSeen;
    SignalAllAlike(s, i, Kill);
  }

  /** A signal or a timeout that arrives when something is already being stopped leaves no trace
      in the flags. */
  lemma FlagsAreFirstComeOnly(o: Options, startedAt: int, s: Loop, i: Input)
    requires s.stopping && Iterate(o, startedAt, s, i).Continue?
    ensures SameFlags(s, Iterate(o, startedAt, s, i).state)
  {
    hide EndWorkload, KillAll;
    assert ServicePhase(o, startedAt, s, i) == Continue(s);
    var b := WorkloadPhase(o, s, i);
    if s.workload && o.service.Some? && i.workloadWait.Ended? {
      EndWorkloadKeepsFlags(o, s, i, i.workloadWait.status);
    }
    assert SameFlags(s, b.state);
    KillKeepsFlags(b.state, i);
  }

  // ----- nothing is missed

  lemma StopPhaseStops(o: Options, startedAt: int, s: Loop, i: Input)
    requires StopPhase(o, startedAt, s, i).Continue?
    ensures !StopPhase(o, startedAt, s, i).state.stopping ==>
      && StopPhase(o, startedAt, s, i) == Continue(s)
      && i.receivedSignal == 0
      && (o.timeout.Some? ==> i.now - startedAt < o.timeout.value)
  {
    hide SignalAll, ExitSeen, Grant;
    if !s.stopping {
      SignalAllAlike(s.(interrupted := true, stopping := true), i, Received(i.receivedSignal));
      SignalAllAlike(s.(timedOut := true, stopping := true), i, Term);
      GrantStops(o, s.(interrupted := true, stopping := true), i, Received(i.receivedSignal));
      GrantStops(o, s.(timedOut := true, stopping := true), i, Term);
    } else {
      KillKeepsFlags(s, i);
    }
  }

  lemma GrantStops(o: Options, s: Loop, i: Input, signal: Signal)
    requires s.stopping
    ensures SignalWithGrace(o, s, i, signal).state.stopping
  {
    hide SignalAll, ExitSeen;
    SignalAllAlike(s, i, signal);
  }

  lemma ServicePhaseWaits(o: Options, startedAt: int, s: Loop, i: Input)
    requires Consistent(o, s) && o.service.Some? && !ServicePhase(o, startedAt, s, i).Throw?
    ensures var t := ServicePhase(o, startedAt, s, i).state;
      !t.workload && !t.stopping ==> t == s && i.now - startedAt < o.service.value.readyTimeout
  {
    hide StartCollectors, ExitSeen;
  }

  lemma EndWorkloadStops(o: Options, s: Loop, i: Input, status: Status)
    requires o.service.Some?
    ensures !EndWorkload(o, s, i, status).Throw? ==> EndWorkload(o, s, i, status).state.stopping
  {
    EndWorkloadKeepsFlags(o, s, i, status);
  }

  /** After an iteration that leaves the run unstopped, no signal had arrived, the timeout had not
      passed, and a service whose workload does not run had not used up its readiness timeout. */
  lemma NothingMissed(o: Options, startedAt: int, s: Loop, i: Input)
    requires Consistent(o, s) && Iterate(o, startedAt, s, i).Continue?
    ensures var t := Iterate(o, startedAt, s, i).state;
      !t.stopping ==>
        && i.receivedSignal == 0
        && (o.timeout.Some? ==> i.now - startedAt < o.timeout.value)
        && (o.service.Some? && !t.workload ==> i.now - startedAt < o.service.value.readyTimeout)
  {
    hide ServicePhase, StopPhase, EndWorkload, Consistent;
    var a := ServicePhase(o, startedAt, s, i);
    if o.service.Some? {
      ServicePhaseWaits(o, startedAt, s, i);
    }
    var b := WorkloadPhase(o, a.state, i);
    StopPhaseStops(o, startedAt, b.state, i);
    if a.state.workload && o.service.Some? && i.workloadWait.Ended? {
      EndWorkloadStops(o, a.state, i, i.workloadWait.status);
    }
  }

  // ----- what the caller gets

  /** Nothing but the outcome itself can stop the report: the collectors stopped, the child was
      executed, and the readings and metrics that are required are there. */
  predicate Tidy(o: Options, s: Loop, f: FinishInput) {
    var b := StopCollectors(o, s, f.stop);
    && !b.Throw?
    && !f.childError
    && !(o.requirePerf && ((b.state.counters && f.readings.countersFail) || (b.state.sampler && f.readings.samplerFails)))
    && !f.metricsFail
  }

  lemma LeavesConsistent(o: Options, startedAt: int, counters: bool, sampler: bool, start: CollectorInput,
                         inputs: seq<Input>)
    requires Begin(o, counters, sampler, start).Continue?
    ensures StaysConsistent(o, Iterations(o, startedAt, Begin(o, counters, sampler, start).state, inputs))
  {
    hide Consistent, Iterations, Begin;
    BeginConsistent(o, counters, sampler, start);
    IterationsConsistent(o, startedAt, Begin(o, counters, sampler, start).state, inputs);
  }

  lemma ReportReturns(o: Options, s: Loop, status: Status, f: FinishInput)
    ensures var e := Finish(o, s, status, f);
      var a := ServiceGone(o, s);
      e.Returned? <==> Tidy(o, a, f) && a.failure.None? && Classify(a, status, f.receivedSignal).Ok?
    ensures var e := Finish(o, s, status, f);
      e.Returned? ==> Classify(ServiceGone(o, s), status, f.receivedSignal) == Ok(e.outcome)
  {
    hide ServiceGone, StopCollectors, Classify, Release;
    var a := ServiceGone(o, s);
    var b := StopCollectors(o, a, f.stop);
    StoppingAlike(o, a, f.stop);
    ReleasedFields(b.state);
    ClassifyAlike(a, b.state, Release(b.state, Target), status, f.receivedSignal);
  }

  lemma ReleasedFields(s: Loop)
    ensures var t := Release(s, Target);
      && t.failure == s.failure
      && t.counters == s.counters
      && t.sampler == s.sampler
      && t.interrupted == s.interrupted && t.timedOut == s.timedOut && t.managedStop == s.managedStop
  {
  }

  lemma ClassifyAlike(s: Loop, t: Loop, u: Loop, status: Status, receivedSignal: nat)
    requires Alike(s, t)
    requires u.interrupted == t.interrupted && u.timedOut == t.timedOut && u.managedStop == t.managedStop
    ensures Classify(s, status, receivedSignal) == Classify(u, status, receivedSignal)
  {
    hide ExitSeen;
  }

  lemma BlameKeepsFlags(s: Loop, failure: Lifecycle)
    ensures var a := Blame(s, failure);
      && a.interrupted == s.interrupted && a.timedOut == s.timedOut && a.managedStop == s.managedStop
      && a.workload == s.workload && a.workloadCompleted == s.workloadCompleted
      && (a.failure.None? <==> s.failure.None? && (s.interrupted || s.timedOut))
  {
  }

  lemma DropKeepsFlags(s: Loop)
    ensures var a := DropWorkload(s);
      && a.interrupted == s.interrupted && a.timedOut == s.timedOut && a.managedStop == s.managedStop
      && a.workloadCompleted == s.workloadCompleted
      && (a.failure.None? <==> s.failure.None? && (s.interrupted || s.timedOut || !s.workload))
  {
    hide Blame;
    BlameKeepsFlags(s, ServiceDiedDuringWorkload);
  }

  lemma GoneKeepsFlags(o: Options, s: Loop)
    ensures var a := ServiceGone(o, s);
      && a.interrupted == s.interrupted && a.timedOut == s.timedOut && a.managedStop == s.managedStop
      && (a.failure.None? <==>
            s.failure.None? && (s.interrupted || s.timedOut || (!s.workload && (o.service.Some? ==> s.workloadCompleted))))
  {
    hide Blame, DropWorkload;
    DropKeepsFlags(s);
    BlameKeepsFlags(DropWorkload(s), ServiceDiedBeforeWorkload);
  }

  /** Every run with a service: it returns normally exactly when nothing else went wrong and the
      workload was seen to exit with 0, or was not seen to end and a flag is up. The flags decide
      the reason; success is exactly a workload that exited with 0 and no flag. */
  lemma ServiceOutcome(o: Options, startedAt: int, counters: bool, sampler: bool, start: CollectorInput,
                       inputs: seq<Input>, f: FinishInput)
    requires o.service.Some? && Iterations(o, startedAt, Initial(counters, sampler), inputs).Left?
    ensures var r := Iterations(o, startedAt, Initial(counters, sampler), inputs);
      var s, e := r.state, Finish(o, r.state, r.status, f);
      && !(s.interrupted && s.timedOut)
      && (e.Returned? <==>
            && Tidy(o, ServiceGone(o, s), f)
            && (ExitSeen(s) == Some(ExitStatus(0)) || (ExitSeen(s).None? && (s.interrupted || s.timedOut))))
      && (e.Returned? ==>
            && e.outcome.reason == (if s.interrupted then Interrupted else if s.timedOut then TimedOut else Exited)
            && (e.outcome.Succeeded() <==> ExitSeen(s) == Some(ExitStatus(0)) && !s.interrupted && !s.timedOut))
  {
    hide Iterations, ServiceGone, Finish, Tidy, ExitSeen;
    LeavesConsistent(o, startedAt, counters, sampler, start, inputs);
    var r := Iterations(o, startedAt, Initial(counters, sampler), inputs);
    ReportReturns(o, r.state, r.status, f);
    GoneKeepsFlags(o, r.state);
  }

  /** Every run without a service: an unsupported status is the only further reason to throw, and
      only when no flag is up. */
  lemma PlainOutcome(o: Options, startedAt: int, counters: bool, sampler: bool, start: CollectorInput,
                     inputs: seq<Input>, f: FinishInput)
    requires o.service.None? && Begin(o, counters, sampler, start).Continue?
    requires Iterations(o, startedAt, Begin(o, counters, sampler, start).state, inputs).Left?
    ensures var r := Iterations(o, startedAt, Begin(o, counters, sampler, start).state, inputs);
      var s, e := r.state, Finish(o, r.state, r.status, f);
      && !(s.interrupted && s.timedOut)
      && (e.Returned? <==> Tidy(o, ServiceGone(o, s), f) && (s.interrupted || s.timedOut || !r.status.OddStatus?))
      && (e.Returned? ==>
            && (e.outcome.reason == Interrupted <==> s.interrupted)
            && (e.outcome.reason == TimedOut <==> s.timedOut)
            && (e.outcome.Succeeded() <==> r.status == ExitStatus(0) && !s.interrupted && !s.timedOut))
  {
    hide Iterations, ServiceGone, Finish, Tidy, ExitSeen, Begin;
    LeavesConsistent(o, startedAt, counters, sampler, start, inputs);
    var r := Iterations(o, startedAt, Begin(o, counters, sampler, start).state, inputs);
    ReportReturns(o, r.state, r.status, f);
    GoneKeepsFlags(o, r.state);
  }

  // ----- the outcome, in terms of the log

  /** Collectors are stopped and destroyed, and guards act. */
  predicate Cleans(a: Action) {
    || a.StoppedCounters? || a.StoppedSampler? || a.DroppedCounters? || a.DroppedSampler?
    || a.GroupKilled? || a.PidKilled? || a.Waited?
  }

  /** From one log to a longer one there is nothing else. */
  predicate Tidies(log: seq<Action>, more: seq<Action>) {
    log <= more && forall k :: |log| <= k < |more| ==> Cleans(more[k])
  }

  lemma TidiesInTurn(a: seq<Action>, b: seq<Action>, c: seq<Action>)
    requires Tidies(a, b) && Tidies(b, c)
    ensures Tidies(a, c)
  {
  }

  lemma DidTidies(s: Loop, a: Action)
    requires Cleans(a)
    ensures Tidies(s.log, Did(s, a).log)
  {
  }

  lemma DestroyTidies(s: Loop, process: Process)
    ensures Tidies(s.log, Destroy(s, process).log)
  {
    hide Tidies;
    var a := Did(s, GroupKilled(process));
    var b := Did(a, PidKilled(process));
    DidTidies(s, GroupKilled(process));
    DidTidies(a, PidKilled(process));
    DidTidies(b, Waited(process));
    TidiesInTurn(s.log, a.log, b.log);
    TidiesInTurn(s.log, b.log, Did(b, Waited(process)).log);
  }

  lemma GoneTidies(o: Options, s: Loop)
    ensures Tidies(s.log, ServiceGone(o, s).log)
  {
    var b := Blame(s, ServiceDiedDuringWorkload);
    BlameAlike(s, ServiceDiedDuringWorkload);
    BlameAlike(DropWorkload(s), ServiceDiedBeforeWorkload);
    DestroyTidies(b, Workload);
    hide Blame, Destroy;
  }

  lemma StopCountersTidies(o: Options, s: Loop, i: CollectorInput)
    ensures Tidies(s.log, StopCounters(o, s, i).state.log)
  {
    hide Tidies, Did;
    SelfTidies(s.log);
    DidTidies(s, StoppedCounters);
  }

  lemma StopSamplerTidies(o: Options, s: Loop, i: CollectorInput)
    ensures Tidies(s.log, StopSampler(o, s, i).state.log)
  {
    hide Tidies, Did;
    SelfTidies(s.log);
    DidTidies(s, StoppedSampler);
  }

  lemma StoppingTidies(o: Options, s: Loop, i: CollectorInput)
    ensures Tidies(s.log, StopCollectors(o, s, i).state.log)
  {
    hide Tidies, StopCounters, StopSampler;
    SelfTidies(s.log);
    var a := StopCounters(o, s, i);
    StopCountersTidies(o, s, i);
    NeverLeft(o, s, i);
    if s.collectorsStarted && !s.collectorsStopped && a.Continue? {
      StopSamplerTidies(o, a.state, i);
      TidiesInTurn(s.log, a.state.log, StopSampler(o, a.state, i).state.log);
    }
  }

  lemma DropTidies(s: Loop)
    ensures Tidies(s.log, DropCollectors(s).log)
  {
    hide Tidies, Did;
    SelfTidies(s.log);
    DidTidies(s, DroppedSampler);
    var a := if s.sampler then Did(s, DroppedSampler) else s;
    DidTidies(a, DroppedCounters);
    TidiesInTurn(s.log, a.log, Did(a, DroppedCounters).log);
  }

  lemma SelfTidies(log: seq<Action>)
    ensures Tidies(log, log)
  {
  }

  lemma FinishTidies(o: Options, s: Loop, status: Status, f: FinishInput)
    ensures Tidies(s.log, Finish(o, s, status, f).log)
  {
    hide Tidies, ServiceGone, StopCollectors, Report, Destroy, DropCollectors;
    var a := ServiceGone(o, s);
    var b := StopCollectors(o, a, f.stop).state;
    GoneTidies(o, s);
    StoppingTidies(o, a, f.stop);
    TidiesInTurn(s.log, a.log, b.log);
    var dropped, released := DropCollectors(b), Release(b, Target);
    DropTidies(b);
    DestroyTidies(dropped, Target);
    TidiesInTurn(b.log, dropped.log, Destroy(dropped, Target).log);
    TidiesInTurn(s.log, b.log, Destroy(dropped, Target).log);
    DidTidies(b, GroupKilled(Target));
    DropTidies(released);
    TidiesInTurn(b.log, released.log, DropCollectors(released).log);
    TidiesInTurn(s.log, b.log, DropCollectors(released).log);
  }

  lemma {:induction false} LeavesReaped(o: Options, startedAt: int, s: Loop, inputs: seq<Input>)
    requires Iterations(o, startedAt, s, inputs).Left?
    ensures var r := Iterations(o, startedAt, s, inputs); Reaped(Target, r.status) in r.state.log
    decreases |inputs|
  {
    var r := Iterate(o, startedAt, s, inputs[0]);
    if r.Continue? {
      hide Iterate;
      LeavesReaped(o, startedAt, r.state, inputs[1..]);
    } else {
      IterateLeaves(o, startedAt, s, inputs[0]);
    }
  }

  lemma IterateLeaves(o: Options, startedAt: int, s: Loop, i: Input)
    requires Iterate(o, startedAt, s, i).Left?
    ensures var r := Iterate(o, startedAt, s, i); Reaped(Target, r.status) in r.state.log
  {
    ServicePhaseStays(o, startedAt, s, i);
    var a := ServicePhase(o, startedAt, s, i);
    WorkloadPhaseStays(o, a.state, i);
    var b := WorkloadPhase(o, a.state, i);
    StopPhaseStays(o, startedAt, b.state, i);
    hide ServicePhase, WorkloadPhase, StopPhase;
    if i.wait.Ended? {
      assert (s.log + [Reaped(Target, i.wait.status)])[|s.log|] == Reaped(Target, i.wait.status);
    }
  }

  lemma ServicePhaseStays(o: Options, startedAt: int, s: Loop, i: Input)
    ensures !ServicePhase(o, startedAt, s, i).Left?
  {
    hide StartCollectors;
    StartingStays(o, s, i.start);
  }

  lemma WorkloadPhaseStays(o: Options, s: Loop, i: Input)
    ensures !WorkloadPhase(o, s, i).Left?
  {
    hide StopCollectors;
    if s.workload && o.service.Some? && i.workloadWait.Ended? {
      StoppingAlike(o, CollectWorkload(s, i.workloadWait.status), i.stop);
    }
  }

  lemma StopPhaseStays(o: Options, startedAt: int, s: Loop, i: Input)
    ensures !StopPhase(o, startedAt, s, i).Left?
  {
    SignalAllStays(s, i);
    SignalAllStays(s.(interrupted := true, stopping := true), i);
    SignalAllStays(s.(timedOut := true, stopping := true), i);
    hide SignalAll;
  }

  lemma SignalAllStays(s: Loop, i: Input)
    ensures forall signal :: !SignalAll(s, i, signal).Left?
  {
  }

  lemma StartingStays(o: Options, s: Loop, i: CollectorInput)
    ensures !StartCollectors(o, s, i).Left?
  {
    NeverLeft(o, s, i);
    NeverLeft(o, StartCounters(s, i).state, i);
  }

  /** The signal of a timeout is the one that ended the target, or 0; that of an interruption is the one
      received. */
  ghost predicate SignalJustified(outcome: Outcome, log: seq<Action>, received: nat) {
    && (outcome.reason == TimedOut ==>
        exists status :: Reaped(Target, status) in log && outcome.signal == if status.KilledBy? then status.signal else 0)
    && (outcome.reason == Interrupted ==> outcome.signal == received)
  }

  /** What an outcome says of the log. With a service: success means that the workload was reaped
      with status 0, any normal return that it was not reaped with another. Without: the exit code
      and the signal are those with which the target was reaped. */
  ghost predicate Justified(o: Options, outcome: Outcome, log: seq<Action>, received: nat) {
    && SignalJustified(outcome, log, received)
    && if o.service.Some? then
      && outcome.reason != Signaled
      && (outcome.reason == Exited <==> outcome.Succeeded())
      && (outcome.Succeeded() ==> Reaped(Workload, ExitStatus(0)) in log)
      && (forall k :: 0 <= k < |log| && log[k].Reaped? && log[k].process == Workload ==> log[k].status == ExitStatus(0))
    else
      && (outcome.Succeeded() ==> Reaped(Target, ExitStatus(0)) in log)
      && (outcome.reason == Exited ==> Reaped(Target, ExitStatus(outcome.exitCode)) in log)
      && (outcome.reason == Signaled ==> Reaped(Target, KilledBy(outcome.signal)) in log)
  }

  lemma StillThere(log: seq<Action>, more: seq<Action>, a: Action)
    requires Tidies(log, more) && a in log
    ensures a in more
  {
    var k :| 0 <= k < |log| && log[k] == a;
    assert more[k] == a;
  }

  lemma OnlyExit(o: Options, d: nat, s: Loop, log: seq<Action>, k: nat)
    requires Legal(o, d, s.log) && Tidies(s.log, log)
    requires ExitSeen(s).None? || ExitSeen(s) == Some(ExitStatus(0))
    requires k < |log| && log[k].Reaped? && log[k].process == Workload
    ensures log[k].status == ExitStatus(0)
  {
    assert s.log[k] == log[k];
    ExitSeenIsLogged(o, d, s.log, log[k].status);
  }

  lemma SignalClassified(s: Loop, status: Status, received: nat)
    ensures var c := Classify(s, status, received); c.Ok? ==>
      && (c.value.reason == TimedOut ==> c.value.signal == if status.KilledBy? then status.signal else 0)
      && (c.value.reason == Interrupted ==> c.value.signal == received)
  {
  }

  lemma FinishSignals(o: Options, s: Loop, status: Status, f: FinishInput)
    requires Reaped(Target, status) in s.log
    ensures var e := Finish(o, s, status, f);
      e.Returned? ==> SignalJustified(e.outcome, e.log, f.receivedSignal)
  {
    hide Finish, ServiceGone, Classify, Tidies, Tidy;
    ReportReturns(o, s, status, f);
    SignalClassified(ServiceGone(o, s), status, f.receivedSignal);
    FinishTidies(o, s, status, f);
    StillThere(s.log, Finish(o, s, status, f).log, Reaped(Target, status));
  }

  lemma ServiceJustified(o: Options, d: nat, startedAt: int, counters: bool, sampler: bool, start: CollectorInput,
                         inputs: seq<Input>, f: FinishInput)
    requires o.service.Some? && Paced(d, startedAt, inputs)
    requires Iterations(o, startedAt, Initial(counters, sampler), inputs).Left?
    ensures var r := Iterations(o, startedAt, Initial(counters, sampler), inputs);
      var e := Finish(o, r.state, r.status, f);
      e.Returned? ==> Justified(o, e.outcome, e.log, f.receivedSignal)
  {
    ServiceOutcome(o, startedAt, counters, sampler, start, inputs, f);
    InitiallySound(o, d, startedAt, counters, sampler, start);
    IterationsSound(o, d, startedAt, startedAt, Initial(counters, sampler), inputs);
    var r := Iterations(o, startedAt, Initial(counters, sampler), inputs);
    var s, e := r.state, Finish(o, r.state, r.status, f);
    assert Legal(o, d, s.log);
    FinishTidies(o, s, r.status, f);
    LeavesReaped(o, startedAt, Initial(counters, sampler), inputs);
    FinishSignals(o, s, r.status, f);
    hide Iterations, Finish, Legal, Tidies, Tidy, ExitSeen, Paced, SignalJustified;
    if e.Returned? {
      if e.outcome.Succeeded() {
        assert ExitSeen(s) == Some(ExitStatus(0));
        ExitLogged(o, d, s);
        StillThere(s.log, e.log, Reaped(Workload, ExitStatus(0)));
      }
      forall k | 0 <= k < |e.log| && e.log[k].Reaped? && e.log[k].process == Workload
        ensures e.log[k].status == ExitStatus(0)
      {
        OnlyExit(o, d, s, e.log, k);
      }
    }
  }

  lemma ExitLogged(o: Options, d: nat, s: Loop)
    requires Legal(o, d, s.log) && ExitSeen(s).Some?
    ensures Reaped(Workload, ExitSeen(s).value) in s.log
  {
    ExitSeenIsLogged(o, d, s.log, ExitSeen(s).value);
  }

  lemma PlainClassified(o: Options, s: Loop, status: Status, receivedSignal: nat)
    requires !s.managedStop
    ensures var c := Classify(s, status, receivedSignal); c.Ok? ==>
      && (c.value.reason == Exited ==> status == ExitStatus(c.value.exitCode))
      && (c.value.reason == Signaled ==> status == KilledBy(c.value.signal))
  {
  }

  lemma PlainJustified(o: Options, startedAt: int, counters: bool, sampler: bool, start: CollectorInput,
                       inputs: seq<Input>, f: FinishInput)
    requires o.service.None? && Begin(o, counters, sampler, start).Continue?
    requires Iterations(o, startedAt, Begin(o, counters, sampler, start).state, inputs).Left?
    ensures var r := Iterations(o, startedAt, Begin(o, counters, sampler, start).state, inputs);
      var e := Finish(o, r.state, r.status, f);
      e.Returned? ==> Justified(o, e.outcome, e.log, f.receivedSignal)
  {
    LeavesConsistent(o, startedAt, counters, sampler, start, inputs);
    LeavesReaped(o, startedAt, Begin(o, counters, sampler, start).state, inputs);
    var r := Iterations(o, startedAt, Begin(o, counters, sampler, start).state, inputs);
    var s := r.state;
    FinishTidies(o, s, r.status, f);
    StillThere(s.log, Finish(o, s, r.status, f).log, Reaped(Target, r.status));
    ReportReturns(o, s, r.status, f);
    GoneKeepsFlags(o, s);
    PlainClassified(o, ServiceGone(o, s), r.status, f.receivedSignal);
    FinishSignals(o, s, r.status, f);
    hide Iterations, Begin, ServiceGone, Finish, Tidy, ExitSeen, Tidies, Classify, SignalJustified;
  }

  /** Every run that returns normally is justified by its log. */
  lemma RunJustified(o: Options, d: nat, startedAt: int, counters: bool, sampler: bool, start: CollectorInput,
                     inputs: seq<Input>, f: FinishInput)
    requires Paced(d, startedAt, inputs)
    ensures var run := Run(o, startedAt, counters, sampler, start, inputs, f);
      run.Some? && run.value.Returned? ==> Justified(o, run.value.outcome, run.value.log, f.receivedSignal)
  {
    var first := Begin(o, counters, sampler, start);
    assert o.service.Some? ==> first == Continue(Initial(counters, sampler));
    hide Begin, Iterations, Finish, Justified, Paced;
    if !first.Throw? && Iterations(o, startedAt, first.state, inputs).Left? {
      BeginContinues(o, counters, sampler, start);
      if o.service.Some? {
        ServiceJustified(o, d, startedAt, counters, sampler, start, inputs, f);
      } else {
        PlainJustified(o, startedAt, counters, sampler, start, inputs, f);
      }
    }
  }

  lemma BeginContinues(o: Options, counters: bool, sampler: bool, start: CollectorInput)
    ensures !Begin(o, counters, sampler, start).Left?
  {
    StartingStays(o, Initial(counters, sampler), start);
  }

  // ----- a flag does not imply its outcome

  function Quiet(now: int): Input {
    Input(StillRunning, now, false, CollectorInput(false, false), false, StillRunning, CollectorInput(false, false), 0,
          false, false, false)
  }

  const NO_FAULT: CollectorInput := CollectorInput(false, false)

  const SERVICE_RUN: Options := Options(Some(10), 5, false, Some(Service(0, false, 100, 5)))

  const LAUNCHED: Loop :=
    Initial(false, false).(workload := true, collectorsStarted := true, log := [StartedWorkload])

  const OVERDUE: Loop :=
    LAUNCHED.(timedOut := true, stopping := true, graceDeadline := Some(15),
      log := [StartedWorkload] + [Sent(Target, Term, 10)] + [Sent(Workload, Term, 10)] + [Deadline(15)])

  const BEREFT: Loop :=
    OVERDUE.(workload := false, collectorsStopped := true, failure := Some(WorkloadKilled(15)), graceDeadline := Some(16),
      log := OVERDUE.log + [Reaped(Workload, KilledBy(15))] + [GroupKilled(Workload)] + [Sent(Target, Term, 11)] + [Deadline(16)])

  lemma Launches()
    ensures Iterate(SERVICE_RUN, 0, Initial(false, false), Quiet(0)) == Continue(LAUNCHED)
  {
  }

  lemma TimesOut()
    ensures Iterate(SERVICE_RUN, 0, LAUNCHED, Quiet(10)) == Continue(OVERDUE)
  {
  }

  lemma LosesWorkload()
    ensures Iterate(SERVICE_RUN, 0, OVERDUE, Quiet(11).(workloadWait := Ended(KilledBy(15)))) == Continue(BEREFT)
  {
  }

  /** A service run of which the time is up while its workload runs, and whose workload dies of the
      SIGTERM it gets, throws the workload's death instead of reporting the timeout. */
  lemma TimedOutRunThrows(status: Status)
    ensures var inputs :=
        [Quiet(0), Quiet(10), Quiet(11).(workloadWait := Ended(KilledBy(15))), Quiet(12).(wait := Ended(status))];
      var r := Iterations(SERVICE_RUN, 0, Initial(false, false), inputs);
      && r.Left? && r.state.timedOut
      && Finish(SERVICE_RUN, r.state, r.status, FinishInput(NO_FAULT, false, NO_FAULT, false, 0))
         == Threw(LifecycleError(WorkloadKilled(15)), r.state.log + [GroupKilled(Target)])
  {
    var last := Did(BEREFT, Reaped(Target, status));
    assert Iterate(SERVICE_RUN, 0, BEREFT, Quiet(12).(wait := Ended(status))) == Left(last, status);
    assert Finish(SERVICE_RUN, last, status, FinishInput(NO_FAULT, false, NO_FAULT, false, 0))
        == Threw(LifecycleError(WorkloadKilled(15)), last.log + [GroupKilled(Target)]);
    hide Iterate, Finish;
    var inputs :=
      [Quiet(0), Quiet(10), Quiet(11).(workloadWait := Ended(KilledBy(15))), Quiet(12).(wait := Ended(status))];
    Launches();
    TimesOut();
    LosesWorkload();
    assert inputs[1..][1..] == inputs[2..] && inputs[2..][1..] == inputs[3..] && inputs[3..][1..] == [];
    assert Iterations(SERVICE_RUN, 0, BEREFT, inputs[3..]) == Left(last, status);
    assert Iterations(SERVICE_RUN, 0, OVERDUE, inputs[2..]) == Left(last, status);
    assert Iterations(SERVICE_RUN, 0, LAUNCHED, inputs[1..]) == Left(last, status);
  }
}
