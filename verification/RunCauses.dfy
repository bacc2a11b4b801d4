/** Why a run does what it does: every action of the loop was called for by the answers of an iteration,
    and every deadline grants the grace of what began the stop (src/process/process_runner.cpp:750-851). */
module RunCauses {
  import opened Results
  import opened ProcessRunner
  import opened RunnerProtocol
  import opened RunOutcome
  import opened RunDecisions

  // ----- what calls for an action

  /** A received signal is passed on as it is; SIGTERM goes to a service that is late or whose workload has
      ended, and to everything when the time is up and no signal has come. */
  predicate CallsFor(o: Options, startedAt: int, i: Input, to: Process, signal: Signal) {
    match signal
    case Received(number) => number == i.receivedSignal && number != 0
    case Term =>
      || (to == Target && (Overdue(o, startedAt, i) || (o.service.Some? && i.workloadWait.Ended?)))
      || (i.receivedSignal == 0 && TimeIsUp(o, startedAt, i))
    case Kill => true
  }

  predicate Grants(o: Options, startedAt: int, i: Input, until: int) {
    || (until == i.now + o.terminationGrace && (i.receivedSignal != 0 || TimeIsUp(o, startedAt, i)))
    || (&& o.service.Some? && until == i.now + o.service.value.shutdownGrace
        && (Overdue(o, startedAt, i) || i.workloadWait.Ended?))
  }

  predicate CausedBy(o: Options, startedAt: int, i: Input, a: Action) {
    match a
    case Sent(to, signal, at) => at == i.now && CallsFor(o, startedAt, i, to, signal)
    case StartedCounters => Ready(o, startedAt, i)
    case StartedSampler => Ready(o, startedAt, i)
    case StartedWorkload => Ready(o, startedAt, i) && !i.spawnFails
    case StoppedCounters => i.workloadWait.Ended?
    case StoppedSampler => i.workloadWait.Ended?
    case Deadline(until) => Grants(o, startedAt, i, until)
    case Reaped(process, status) => (if process == Target then i.wait else i.workloadWait) == Wait.Ended(status)
    case GroupKilled(process) => process == Workload && i.workloadWait.Ended?
    case _ => false
  }

  /** From one log to a longer one the iteration calls for everything. */
  predicate Adds(o: Options, startedAt: int, i: Input, log: seq<Action>, more: seq<Action>) {
    log <= more && forall k :: |log| <= k < |more| ==> CausedBy(o, startedAt, i, more[k])
  }

  lemma AddsInTurn(o: Options, startedAt: int, i: Input, a: seq<Action>, b: seq<Action>, c: seq<Action>)
    requires Adds(o, startedAt, i, a, b) && Adds(o, startedAt, i, b, c)
    ensures Adds(o, startedAt, i, a, c)
  {
    hide CausedBy;
  }

  lemma AddsNothing(o: Options, startedAt: int, i: Input, log: seq<Action>)
    ensures Adds(o, startedAt, i, log, log)
  {
  }

  lemma AddsOne(o: Options, startedAt: int, i: Input, s: Loop, a: Action)
    requires CausedBy(o, startedAt, i, a)
    ensures Adds(o, startedAt, i, s.log, Did(s, a).log)
  {
    hide CausedBy;
  }

  lemma StartingAdds(o: Options, startedAt: int, s: Loop, i: Input)
    requires Ready(o, startedAt, i)
    ensures Adds(o, startedAt, i, s.log, StartCollectors(o, s, i.start).state.log)
  {
    hide Adds, Ready, Did, StartCounters, StartSampler;
    var a := StartCounters(s, i.start);
    StartCountersAdds(o, startedAt, s, i);
    CountersOn(s, i.start);
    if a.Continue? {
      StartSamplerAdds(o, startedAt, a.state, i);
      AddsInTurn(o, startedAt, i, s.log, a.state.log, StartSampler(o, a.state, i.start).state.log);
      SamplerOn(o, a.state, i.start);
    }
  }

  lemma StartCountersAdds(o: Options, startedAt: int, s: Loop, i: Input)
    requires Ready(o, startedAt, i)
    ensures Adds(o, startedAt, i, s.log, StartCounters(s, i.start).state.log)
  {
    hide Adds, Ready, Did;
    AddsNothing(o, startedAt, i, s.log);
    AddsOne(o, startedAt, i, s, StartedCounters);
  }

  lemma StartSamplerAdds(o: Options, startedAt: int, s: Loop, i: Input)
    requires Ready(o, startedAt, i)
    ensures Adds(o, startedAt, i, s.log, StartSampler(o, s, i.start).state.log)
  {
    hide Adds, Ready, Did;
    AddsNothing(o, startedAt, i, s.log);
    AddsOne(o, startedAt, i, s, StartedSampler);
  }

  lemma StopCountersAdds(o: Options, startedAt: int, s: Loop, i: Input)
    requires i.workloadWait.Ended?
    ensures Adds(o, startedAt, i, s.log, StopCounters(o, s, i.stop).state.log)
  {
    hide Adds, Did;
    AddsNothing(o, startedAt, i, s.log);
    AddsOne(o, startedAt, i, s, StoppedCounters);
  }

  lemma StopSamplerAdds(o: Options, startedAt: int, s: Loop, i: Input)
    requires i.workloadWait.Ended?
    ensures Adds(o, startedAt, i, s.log, StopSampler(o, s, i.stop).state.log)
  {
    hide Adds, Did;
    AddsNothing(o, startedAt, i, s.log);
    AddsOne(o, startedAt, i, s, StoppedSampler);
  }

  lemma StoppingAdds(o: Options, startedAt: int, s: Loop, i: Input)
    requires i.workloadWait.Ended?
    ensures Adds(o, startedAt, i, s.log, StopCollectors(o, s, i.stop).state.log)
  {
    hide Adds, StopCounters, StopSampler;
    AddsNothing(o, startedAt, i, s.log);
    var a := StopCounters(o, s, i.stop);
    StopCountersAdds(o, startedAt, s, i);
    CountersOff(o, s, i.stop);
    if a.Continue? {
      StopSamplerAdds(o, startedAt, a.state, i);
      AddsInTurn(o, startedAt, i, s.log, a.state.log, StopSampler(o, a.state, i.stop).state.log);
      SamplerOff(o, a.state, i.stop);
    }
  }

  lemma TerminateAdds(o: Options, startedAt: int, s: Loop, i: Input)
    requires o.service.Some? && (Overdue(o, startedAt, i) || i.workloadWait.Ended?)
    ensures Adds(o, startedAt, i, s.log, Terminate(s, i, o.service.value.shutdownGrace).state.log)
  {
    hide Adds, Overdue, Did;
    var a, until := s.(stopping := true), i.now + o.service.value.shutdownGrace;
    AddsNothing(o, startedAt, i, s.log);
    if !i.termFails {
      var b := Did(a, Sent(Target, Term, i.now));
      AddsOne(o, startedAt, i, a, Sent(Target, Term, i.now));
      AddsOne(o, startedAt, i, b, Deadline(until));
      AddsInTurn(o, startedAt, i, s.log, b.log, Did(b, Deadline(until)).log);
    }
  }

  lemma LaunchAdds(o: Options, startedAt: int, s: Loop, i: Input)
    requires Ready(o, startedAt, i)
    ensures Adds(o, startedAt, i, s.log, BeginWorkload(o, s, i).state.log)
  {
    hide Adds, Ready, Did, StartCollectors;
    var a := StartCollectors(o, s, i.start).state;
    StartingAdds(o, startedAt, s, i);
    if !i.spawnFails {
      AddsOne(o, startedAt, i, a, StartedWorkload);
      AddsInTurn(o, startedAt, i, s.log, a.log, Did(a, StartedWorkload).log);
    }
  }

  lemma ServicePhaseAdds(o: Options, startedAt: int, s: Loop, i: Input)
    ensures Adds(o, startedAt, i, s.log, ServicePhase(o, startedAt, s, i).state.log)
  {
    hide Adds, BeginWorkload, Terminate;
    AddsNothing(o, startedAt, i, s.log);
    if Ready(o, startedAt, i) {
      LaunchAdds(o, startedAt, s, i);
    } else if Overdue(o, startedAt, i) {
      TerminateAdds(o, startedAt, s.(failure := Some(ReadinessTimedOut)), i);
    }
  }

  lemma CollectAdds(o: Options, startedAt: int, s: Loop, i: Input)
    requires i.workloadWait.Ended?
    ensures Adds(o, startedAt, i, s.log, CollectWorkload(s, i.workloadWait.status).log)
  {
    hide Adds, Did;
    var a := Did(s, Reaped(Workload, i.workloadWait.status));
    AddsOne(o, startedAt, i, s, Reaped(Workload, i.workloadWait.status));
    AddsOne(o, startedAt, i, a, GroupKilled(Workload));
    AddsInTurn(o, startedAt, i, s.log, a.log, Did(a, GroupKilled(Workload)).log);
  }

  lemma EndWorkloadAdds(o: Options, startedAt: int, s: Loop, i: Input)
    requires o.service.Some? && i.workloadWait.Ended?
    ensures Adds(o, startedAt, i, s.log, EndWorkload(o, s, i, i.workloadWait.status).state.log)
  {
    hide Adds, CollectWorkload, StopCollectors, Judge, Terminate;
    var status := i.workloadWait.status;
    var t := CollectWorkload(s, status);
    CollectAdds(o, startedAt, s, i);
    var a := StopCollectors(o, t, i.stop);
    StoppingAdds(o, startedAt, t, i);
    AddsInTurn(o, startedAt, i, s.log, t.log, a.state.log);
    var b := Judge(a.state, status);
    JudgeAlike(a.state, status);
    TerminateAdds(o, startedAt, b, i);
    AddsInTurn(o, startedAt, i, s.log, b.log, Terminate(b, i, o.service.value.shutdownGrace).state.log);
  }

  lemma WorkloadPhaseAdds(o: Options, startedAt: int, s: Loop, i: Input)
    ensures Adds(o, startedAt, i, s.log, WorkloadPhase(o, s, i).state.log)
  {
    hide Adds, EndWorkload;
    AddsNothing(o, startedAt, i, s.log);
    if o.service.Some? && i.workloadWait.Ended? {
      EndWorkloadAdds(o, startedAt, s, i);
    }
  }

  lemma SignalAllAdds(o: Options, startedAt: int, s: Loop, i: Input, signal: Signal)
    requires forall to :: CallsFor(o, startedAt, i, to, signal)
    ensures Adds(o, startedAt, i, s.log, SignalAll(s, i, signal).state.log)
  {
    hide Adds, Did, CallsFor;
    AddsNothing(o, startedAt, i, s.log);
    var a := Did(s, Sent(Target, signal, i.now));
    AddsOne(o, startedAt, i, s, Sent(Target, signal, i.now));
    AddsOne(o, startedAt, i, a, Sent(Workload, signal, i.now));
    AddsInTurn(o, startedAt, i, s.log, a.log, Did(a, Sent(Workload, signal, i.now)).log);
  }

  lemma GraceAdds(o: Options, startedAt: int, s: Loop, i: Input, signal: Signal)
    requires forall to :: CallsFor(o, startedAt, i, to, signal)
    requires i.receivedSignal != 0 || TimeIsUp(o, startedAt, i)
    ensures Adds(o, startedAt, i, s.log, SignalWithGrace(o, s, i, signal).state.log)
  {
    hide Adds, SignalAll, CallsFor, TimeIsUp, Did;
    var a, until := SignalAll(s, i, signal).state, i.now + o.terminationGrace;
    SignalAllAdds(o, startedAt, s, i, signal);
    AddsOne(o, startedAt, i, a, Deadline(until));
    AddsInTurn(o, startedAt, i, s.log, a.log, Did(a, Deadline(until)).log);
  }

  lemma StopPhaseAdds(o: Options, startedAt: int, s: Loop, i: Input)
    ensures Adds(o, startedAt, i, s.log, StopPhase(o, startedAt, s, i).state.log)
  {
    hide Adds, SignalWithGrace, SignalAll;
    AddsNothing(o, startedAt, i, s.log);
    if i.receivedSignal != 0 {
      GraceAdds(o, startedAt, s.(interrupted := true, stopping := true), i, Received(i.receivedSignal));
    } else if TimeIsUp(o, startedAt, i) {
      GraceAdds(o, startedAt, s.(timedOut := true, stopping := true), i, Term);
    }
    SignalAllAdds(o, startedAt, s, i, Kill);
  }

  /** Every iteration, however it ends. */
  lemma IterateAdds(o: Options, startedAt: int, s: Loop, i: Input)
    ensures Adds(o, startedAt, i, s.log, Iterate(o, startedAt, s, i).state.log)
  {
    hide Adds, ServicePhase, WorkloadPhase, StopPhase, Did;
    AddsNothing(o, startedAt, i, s.log);
    if i.wait.Ended? {
      AddsOne(o, startedAt, i, s, Reaped(Target, i.wait.status));
    } else {
      var a := ServicePhase(o, startedAt, s, i).state;
      ServicePhaseAdds(o, startedAt, s, i);
      var b := WorkloadPhase(o, a, i).state;
      WorkloadPhaseAdds(o, startedAt, a, i);
      AddsInTurn(o, startedAt, i, s.log, a.log, b.log);
      StopPhaseAdds(o, startedAt, b, i);
      AddsInTurn(o, startedAt, i, s.log, b.log, StopPhase(o, startedAt, b, i).state.log);
    }
  }

  // ----- over a run

  ghost predicate Caused(o: Options, startedAt: int, inputs: seq<Input>, a: Action) {
    exists k :: 0 <= k < |inputs| && CausedBy(o, startedAt, inputs[k], a)
  }

  ghost predicate CausedFrom(o: Options, startedAt: int, inputs: seq<Input>, log: seq<Action>, more: seq<Action>) {
    log <= more && forall k :: |log| <= k < |more| ==> Caused(o, startedAt, inputs, more[k])
  }

  lemma CausedLater(o: Options, startedAt: int, inputs: seq<Input>, a: Action)
    requires inputs != [] && Caused(o, startedAt, inputs[1..], a)
    ensures Caused(o, startedAt, inputs, a)
  {
    hide CausedBy;
    var k :| 0 <= k < |inputs[1..]| && CausedBy(o, startedAt, inputs[1..][k], a);
    assert CausedBy(o, startedAt, inputs[k + 1], a);
  }

  lemma CausedNow(o: Options, startedAt: int, inputs: seq<Input>, log: seq<Action>, more: seq<Action>)
    requires inputs != [] && Adds(o, startedAt, inputs[0], log, more)
    ensures CausedFrom(o, startedAt, inputs, log, more)
  {
    hide CausedBy;
  }

  lemma {:induction false} IterationsCaused(o: Options, startedAt: int, s: Loop, inputs: seq<Input>)
    ensures CausedFrom(o, startedAt, inputs, s.log, Iterations(o, startedAt, s, inputs).state.log)
    decreases |inputs|
  {
    hide Iterate, Caused, Adds;
    if inputs != [] {
      var r := Iterate(o, startedAt, s, inputs[0]);
      IterateAdds(o, startedAt, s, inputs[0]);
      CausedNow(o, startedAt, inputs, s.log, r.state.log);
      if r.Continue? {
        IterationsCaused(o, startedAt, r.state, inputs[1..]);
        var more := Iterations(o, startedAt, r.state, inputs[1..]).state.log;
        forall k | |r.state.log| <= k < |more|
          ensures Caused(o, startedAt, inputs, more[k])
        {
          CausedLater(o, startedAt, inputs, more[k]);
        }
      }
    }
  }

  /** What only the loop does, or, if there is no service, the start of the run. */
  predicate NeedsCause(o: Options, a: Action) {
    || a.Sent? || a.StartedWorkload? || a.Deadline? || a.Reaped?
    || (o.service.Some? && (a.StartedCounters? || a.StartedSampler?))
  }

  lemma UnwindTidies(s: Loop)
    ensures Tidies(s.log, Unwind(s))
  {
    hide Tidies, Destroy, DropCollectors;
    var a := if s.workload then Destroy(s, Workload) else s;
    SelfTidies(s.log);
    DestroyTidies(s, Workload);
    DropTidies(a);
    DestroyTidies(DropCollectors(a), Target);
    TidiesInTurn(s.log, a.log, DropCollectors(a).log);
    TidiesInTurn(s.log, DropCollectors(a).log, Unwind(s));
  }

  /** The state in which a run leaves its loop or throws, if it ends. */
  function LastState(o: Options, startedAt: int, counters: bool, sampler: bool, start: CollectorInput,
                     inputs: seq<Input>): Loop {
    var first := Begin(o, counters, sampler, start);
    if first.Throw? then first.state else Iterations(o, startedAt, first.state, inputs).state
  }

  lemma RunTidies(o: Options, startedAt: int, counters: bool, sampler: bool, start: CollectorInput,
                  inputs: seq<Input>, f: FinishInput)
    requires Run(o, startedAt, counters, sampler, start, inputs, f).Some?
    ensures Tidies(LastState(o, startedAt, counters, sampler, start, inputs).log,
                   Run(o, startedAt, counters, sampler, start, inputs, f).value.log)
  {
    hide Tidies, Begin, Iterations, Finish, Unwind;
    var first := Begin(o, counters, sampler, start);
    UnwindTidies(first.state);
    var r := Iterations(o, startedAt, first.state, inputs);
    UnwindTidies(r.state);
    if r.Left? {
      FinishTidies(o, r.state, r.status, f);
    }
  }

  lemma BeginsClean(o: Options, counters: bool, sampler: bool, start: CollectorInput)
    ensures forall a :: a in Begin(o, counters, sampler, start).state.log ==> !NeedsCause(o, a)
  {
  }

  /** Every run: each signal, deadline, start and reaping in its log was called for by some iteration's
      answers. */
  lemma RunCaused(o: Options, startedAt: int, counters: bool, sampler: bool, start: CollectorInput,
                  inputs: seq<Input>, f: FinishInput)
    ensures var run := Run(o, startedAt, counters, sampler, start, inputs, f);
      run.Some? ==> forall k :: 0 <= k < |run.value.log| && NeedsCause(o, run.value.log[k]) ==>
        Caused(o, startedAt, inputs, run.value.log[k])
  {
    hide Run, Begin, Iterations, Caused;
    var run := Run(o, startedAt, counters, sampler, start, inputs, f);
    if run.Some? {
      RunTidies(o, startedAt, counters, sampler, start, inputs, f);
      BeginsClean(o, counters, sampler, start);
      var first := Begin(o, counters, sampler, start);
      IterationsCaused(o, startedAt, first.state, inputs);
      var last := LastState(o, startedAt, counters, sampler, start, inputs);
      forall k | 0 <= k < |run.value.log| && NeedsCause(o, run.value.log[k])
        ensures Caused(o, startedAt, inputs, run.value.log[k])
      {
        assert k < |last.log| && run.value.log[k] == last.log[k];
        assert k >= |first.state.log|;
      }
    }
  }

  // ----- the graces

  predicate ExitLoggedIn(log: seq<Action>) {
    exists k :: 0 <= k < |log| && log[k].Reaped? && log[k].process == Workload
  }

  /** A deadline follows a signal and lies the grace of its branch after it: the termination grace
      for an interruption or a timeout, the service's shutdown grace for a service that was not ready
      in time or whose workload has ended. */
  predicate GrantedAt(o: Options, flagged: bool, log: seq<Action>, j: nat)
    requires j < |log| && log[j].Deadline?
  {
    && j > 0
    && log[j - 1].Sent?
    && (if flagged && !ExitLoggedIn(log[..j]) then log[j].until == log[j - 1].at + o.terminationGrace
        else o.service.Some? && log[j].until == log[j - 1].at + o.service.value.shutdownGrace)
  }

  predicate Graced(o: Options, flagged: bool, log: seq<Action>) {
    forall j: nat :: j < |log| && log[j].Deadline? ==> GrantedAt(o, flagged, log, j)
  }

  /** Nothing has been granted yet, and no workload has ended. */
  predicate Ungranted(log: seq<Action>) {
    forall k :: 0 <= k < |log| ==> !log[k].Deadline? && !(log[k].Reaped? && log[k].process == Workload)
  }

  predicate Flagged(s: Loop) {
    s.interrupted || s.timedOut
  }

  predicate GracesKept(o: Options, s: Loop) {
    && Graced(o, Flagged(s), s.log)
    && (!s.stopping ==> Ungranted(s.log) && !Flagged(s))
  }

  lemma GracedMore(o: Options, flagged: bool, log: seq<Action>, a: Action)
    requires Graced(o, flagged, log)
    requires a.Deadline? ==> GrantedAt(o, flagged, log + [a], |log|)
    ensures Graced(o, flagged, log + [a])
  {
    var more := log + [a];
    forall j: nat | j < |more| && more[j].Deadline?
      ensures GrantedAt(o, flagged, more, j)
    {
      if j < |log| {
        assert more[..j] == log[..j];
        assert GrantedAt(o, flagged, log, j);
      }
    }
  }

  /** Nothing is granted or reaped from one log to a longer one. */
  predicate Plain(log: seq<Action>, more: seq<Action>) {
    log <= more && forall k :: |log| <= k < |more| ==> !more[k].Deadline? && !more[k].Reaped?
  }

  lemma {:induction false} GracedPlain(o: Options, flagged: bool, log: seq<Action>, more: seq<Action>)
    requires Graced(o, flagged, log) && Plain(log, more)
    ensures Graced(o, flagged, more)
    decreases |more|
  {
    hide Graced, GrantedAt;
    if |log| == |more| {
      assert more == log;
    } else {
      var front, a := more[..|more| - 1], more[|more| - 1];
      GracedPlain(o, flagged, log, front);
      assert more == front + [a];
      GracedMore(o, flagged, front, a);
    }
  }

  lemma UngrantedPlain(log: seq<Action>, more: seq<Action>)
    requires Ungranted(log) && Plain(log, more)
    ensures Ungranted(more)
  {
  }

  lemma PlainItself(log: seq<Action>)
    ensures Plain(log, log)
  {
  }

  lemma DidPlain(s: Loop, a: Action)
    requires !a.Deadline? && !a.Reaped?
    ensures Plain(s.log, Did(s, a).log)
  {
  }

  lemma StartCountersPlain(s: Loop, i: CollectorInput)
    ensures Plain(s.log, StartCounters(s, i).state.log)
  {
    hide Plain, Did;
    PlainItself(s.log);
    DidPlain(s, StartedCounters);
  }

  lemma StartSamplerPlain(o: Options, s: Loop, i: CollectorInput)
    ensures Plain(s.log, StartSampler(o, s, i).state.log)
  {
    hide Plain, Did;
    PlainItself(s.log);
    DidPlain(s, StartedSampler);
  }

  lemma PlainInTurn(a: seq<Action>, b: seq<Action>, c: seq<Action>)
    requires Plain(a, b) && Plain(b, c)
    ensures Plain(a, c)
  {
  }

  lemma StartingPlain(o: Options, s: Loop, i: CollectorInput)
    ensures Plain(s.log, StartCollectors(o, s, i).state.log)
  {
    hide Plain, StartCounters, StartSampler;
    var a := StartCounters(s, i);
    StartCountersPlain(s, i);
    CountersOn(s, i);
    if a.Continue? {
      StartSamplerPlain(o, a.state, i);
      PlainInTurn(s.log, a.state.log, StartSampler(o, a.state, i).state.log);
      SamplerOn(o, a.state, i);
    }
  }

  lemma LaunchPlain(o: Options, s: Loop, i: Input)
    ensures Plain(s.log, BeginWorkload(o, s, i).state.log)
  {
    hide StartCollectors;
    StartingPlain(o, s, i.start);
  }

  lemma SignalAllLog(s: Loop, i: Input, signal: Signal)
    ensures var more := SignalAll(s, i, signal).state.log;
      && Plain(s.log, more)
      && (SignalAll(s, i, signal).Continue? ==>
            |more| > 0 && more[|more| - 1].Sent? && more[|more| - 1].at == i.now)
  {
  }

  lemma TerminateLog(s: Loop, i: Input, grace: nat)
    ensures Terminate(s, i, grace).state.log ==
      s.log + if i.termFails then [] else [Sent(Target, Term, i.now), Deadline(i.now + grace)]
  {
  }

  /** A stop with the service's own grace. */
  lemma TerminateGraced(o: Options, flagged: bool, s: Loop, i: Input)
    requires o.service.Some? && Graced(o, flagged, s.log) && (!flagged || ExitLoggedIn(s.log))
    ensures Graced(o, flagged, Terminate(s, i, o.service.value.shutdownGrace).state.log)
  {
    hide Terminate, Graced;
    var grace := o.service.value.shutdownGrace;
    TerminateLog(s, i, grace);
    if i.termFails {
      assert s.log + [] == s.log;
    } else {
      var told := s.log + [Sent(Target, Term, i.now)];
      GracedMore(o, flagged, s.log, Sent(Target, Term, i.now));
      if flagged {
        ExitStays(s.log, told);
      }
      assert (told + [Deadline(i.now + grace)])[..|told|] == told;
      GracedMore(o, flagged, told, Deadline(i.now + grace));
      assert told + [Deadline(i.now + grace)] == s.log + [Sent(Target, Term, i.now), Deadline(i.now + grace)];
    }
  }

  lemma ExitStays(log: seq<Action>, more: seq<Action>)
    requires log <= more && ExitLoggedIn(log)
    ensures ExitLoggedIn(more)
  {
    var k :| 0 <= k < |log| && log[k].Reaped? && log[k].process == Workload;
    assert more[k].Reaped?;
  }

  predicate KeepsGraces(o: Options, r: StepResult) {
    Graced(o, Flagged(r.state), r.state.log) && (r.Continue? ==> GracesKept(o, r.state))
  }

  lemma LaunchFlags(o: Options, s: Loop, i: Input)
    ensures Flagged(BeginWorkload(o, s, i).state) == Flagged(s)
  {
    hide StartCollectors, ExitSeen;
    StartingAlike(o, s, i.start);
  }

  lemma ServicePhaseGraced(o: Options, startedAt: int, s: Loop, i: Input)
    requires GracesKept(o, s)
    ensures KeepsGraces(o, ServicePhase(o, startedAt, s, i))
  {
    hide Graced, Ungranted, BeginWorkload, Terminate;
    LaunchPlain(o, s, i);
    LaunchFlags(o, s, i);
    GracedPlain(o, Flagged(s), s.log, BeginWorkload(o, s, i).state.log);
    if !s.stopping {
      UngrantedPlain(s.log, BeginWorkload(o, s, i).state.log);
      var late := s.(failure := Some(ReadinessTimedOut));
      if o.service.Some? {
        TerminateGraced(o, Flagged(s), late, i);
        TerminateTable(late, i, o.service.value.shutdownGrace);
      }
    }
  }

  lemma EndWorkloadFlags(o: Options, s: Loop, i: Input, status: Status)
    requires o.service.Some?
    ensures var r := EndWorkload(o, s, i, status);
      Flagged(r.state) == Flagged(s) && (r.Continue? ==> r.state.stopping)
  {
    hide CollectWorkload, StopCollectors, Judge, Terminate, ExitSeen;
    var t := CollectWorkload(s, status);
    CollectTable(s, status);
    var a := StopCollectors(o, t, i.stop).state;
    StoppingAlike(o, t, i.stop);
    JudgeKeepsFlags(a, status);
    TerminateTable(Judge(a, status), i, o.service.value.shutdownGrace);
  }

  lemma CollectedLogIs(s: Loop, status: Status)
    ensures CollectWorkload(s, status).log == s.log + [Reaped(Workload, status)] + [GroupKilled(Workload)]
  {
  }

  lemma CollectGraced(o: Options, flagged: bool, s: Loop, status: Status)
    requires Graced(o, flagged, s.log)
    ensures Graced(o, flagged, CollectWorkload(s, status).log) && ExitLoggedIn(CollectWorkload(s, status).log)
  {
    hide Graced, CollectWorkload;
    CollectedLogIs(s, status);
    var reaped := s.log + [Reaped(Workload, status)];
    GracedMore(o, flagged, s.log, Reaped(Workload, status));
    assert reaped[|s.log|].Reaped?;
    GracedMore(o, flagged, reaped, GroupKilled(Workload));
    ExitStays(reaped, CollectWorkload(s, status).log);
  }

  lemma TidiesPlain(log: seq<Action>, more: seq<Action>)
    requires Tidies(log, more)
    ensures Plain(log, more)
  {
  }

  lemma EndWorkloadGraced(o: Options, flagged: bool, s: Loop, i: Input, status: Status)
    requires o.service.Some? && Graced(o, flagged, s.log)
    ensures Graced(o, flagged, EndWorkload(o, s, i, status).state.log)
  {
    hide Graced, CollectWorkload, StopCollectors, Judge, Terminate, ExitLoggedIn, Plain, Tidies;
    var t := CollectWorkload(s, status);
    CollectGraced(o, flagged, s, status);
    var a := StopCollectors(o, t, i.stop).state;
    StoppingTidies(o, t, i.stop);
    TidiesPlain(t.log, a.log);
    GracedPlain(o, flagged, t.log, a.log);
    PlainIsLonger(t.log, a.log);
    ExitStays(t.log, a.log);
    JudgeAlike(a, status);
    TerminateGraced(o, flagged, Judge(a, status), i);
  }

  lemma PlainIsLonger(log: seq<Action>, more: seq<Action>)
    requires Plain(log, more)
    ensures log <= more
  {
  }

  lemma WorkloadPhaseGraced(o: Options, s: Loop, i: Input)
    requires GracesKept(o, s)
    ensures KeepsGraces(o, WorkloadPhase(o, s, i))
  {
    hide Graced, Ungranted, EndWorkload;
    if o.service.Some? && i.workloadWait.Ended? {
      EndWorkloadGraced(o, Flagged(s), s, i, i.workloadWait.status);
      EndWorkloadFlags(o, s, i, i.workloadWait.status);
    }
  }

  lemma UngrantedNoExit(log: seq<Action>)
    requires Ungranted(log)
    ensures !ExitLoggedIn(log)
  {
  }

  lemma GraceGraced(o: Options, s: Loop, i: Input, signal: Signal)
    requires Graced(o, true, s.log) && Ungranted(s.log)
    ensures Graced(o, true, SignalWithGrace(o, s, i, signal).state.log)
  {
    hide SignalAll, Graced, Ungranted, Plain;
    var a := SignalAll(s, i, signal);
    SignalAllLog(s, i, signal);
    GracedPlain(o, true, s.log, a.state.log);
    if a.Continue? {
      UngrantedPlain(s.log, a.state.log);
      UngrantedNoExit(a.state.log);
      var until := i.now + o.terminationGrace;
      assert (a.state.log + [Deadline(until)])[..|a.state.log|] == a.state.log;
      GracedMore(o, true, a.state.log, Deadline(until));
    }
    SignalTable(s, i, signal);
  }

  lemma UngrantedGraced(o: Options, flagged: bool, log: seq<Action>)
    requires Ungranted(log)
    ensures Graced(o, flagged, log)
  {
  }

  lemma StopPhaseGraced(o: Options, startedAt: int, s: Loop, i: Input)
    requires GracesKept(o, s)
    ensures KeepsGraces(o, StopPhase(o, startedAt, s, i))
  {
    hide Graced, Ungranted, SignalWithGrace, SignalAll;
    if !s.stopping {
      var interrupted, late := s.(interrupted := true, stopping := true), s.(timedOut := true, stopping := true);
      UngrantedGraced(o, true, s.log);
      GraceGraced(o, interrupted, i, Received(i.receivedSignal));
      GraceFlags(o, interrupted, i, Received(i.receivedSignal));
      GraceGraced(o, late, i, Term);
      GraceFlags(o, late, i, Term);
    } else {
      hide KillAll;
      KillGraced(o, s, i);
    }
  }

  lemma KillGraced(o: Options, s: Loop, i: Input)
    requires GracesKept(o, s) && s.stopping
    ensures KeepsGraces(o, KillAll(s, i))
  {
    hide Graced, Ungranted, SignalAll;
    SignalAllLog(s, i, Kill);
    SignalTable(s, i, Kill);
    GracedPlain(o, Flagged(s), s.log, SignalAll(s, i, Kill).state.log);
  }

  lemma GraceFlags(o: Options, s: Loop, i: Input, signal: Signal)
    requires s.stopping
    ensures var t := SignalWithGrace(o, s, i, signal).state; Flagged(t) == Flagged(s) && t.stopping
  {
    hide SignalAll, ExitSeen, Grant;
    var a := SignalAll(s, i, signal).state;
    SignalAllAlike(s, i, signal);
    GrantAlike(a, i.now + o.terminationGrace);
  }

  lemma IterateGraced(o: Options, startedAt: int, s: Loop, i: Input)
    requires GracesKept(o, s)
    ensures KeepsGraces(o, Iterate(o, startedAt, s, i))
  {
    hide GracesKept, Graced, ServicePhase, WorkloadPhase, StopPhase;
    if i.wait.Ended? {
      LeavesGraced(o, s, Reaped(Target, i.wait.status));
    } else {
      GracesKeptIs(o, s);
      ServicePhaseGraced(o, startedAt, s, i);
      ServicePhaseStays(o, startedAt, s, i);
      var a := ServicePhase(o, startedAt, s, i);
      if a.Continue? {
        WorkloadPhaseGraced(o, a.state, i);
        WorkloadPhaseStays(o, a.state, i);
        var b := WorkloadPhase(o, a.state, i);
        if b.Continue? {
          StopPhaseGraced(o, startedAt, b.state, i);
        }
      }
    }
  }

  lemma GracesKeptIs(o: Options, s: Loop)
    requires GracesKept(o, s)
    ensures Graced(o, Flagged(s), s.log)
  {
  }

  lemma LeavesGraced(o: Options, s: Loop, a: Action)
    requires GracesKept(o, s) && a.Reaped? && a.process == Target
    ensures GracesKept(o, Did(s, a)) && Graced(o, Flagged(Did(s, a)), Did(s, a).log)
  {
    hide Graced;
    GracedMore(o, Flagged(s), s.log, a);
  }

  lemma {:induction false} IterationsGraced(o: Options, startedAt: int, s: Loop, inputs: seq<Input>)
    requires GracesKept(o, s)
    ensures KeepsGraces(o, Iterations(o, startedAt, s, inputs))
    decreases |inputs|
  {
    hide GracesKept, Graced, Iterate;
    GracesKeptIs(o, s);
    if inputs != [] {
      IterateGraced(o, startedAt, s, inputs[0]);
      var r := Iterate(o, startedAt, s, inputs[0]);
      if r.Continue? {
        IterationsGraced(o, startedAt, r.state, inputs[1..]);
      }
    }
  }

  lemma BeginGraced(o: Options, counters: bool, sampler: bool, start: CollectorInput)
    ensures var r := Begin(o, counters, sampler, start); !r.Left? && KeepsGraces(o, r)
  {
    hide StartCollectors, ExitSeen;
    StartingPlain(o, Initial(counters, sampler), start);
    StartingAlike(o, Initial(counters, sampler), start);
    StartingStays(o, Initial(counters, sampler), start);
    if StartCollectors(o, Initial(counters, sampler), start).Continue? {
      StartedStanding(o, Initial(counters, sampler), start);
    }
  }

  lemma StartedStanding(o: Options, s: Loop, i: CollectorInput)
    requires StartCollectors(o, s, i).Continue?
    ensures StartCollectors(o, s, i).state.stopping == s.stopping
  {
    StartTable(o, s, i);
    hide StartCollectors;
  }

  /** Every run: all its deadlines are granted as they should be, and a normal return says which
      branch it was. */
  lemma RunGraced(o: Options, startedAt: int, counters: bool, sampler: bool, start: CollectorInput,
                  inputs: seq<Input>, f: FinishInput)
    ensures var run := Run(o, startedAt, counters, sampler, start, inputs, f);
      run.Some? ==>
        && Graced(o, Flagged(LastState(o, startedAt, counters, sampler, start, inputs)), run.value.log)
        && (run.value.Returned? ==>
              Graced(o, run.value.outcome.reason in {Interrupted, TimedOut}, run.value.log))
  {
    hide Run, Begin, Iterations, Graced, GracesKept, Tidies;
    var run := Run(o, startedAt, counters, sampler, start, inputs, f);
    if run.Some? {
      var last := LastState(o, startedAt, counters, sampler, start, inputs);
      RunTidies(o, startedAt, counters, sampler, start, inputs, f);
      TidiesPlain(last.log, run.value.log);
      BeginGraced(o, counters, sampler, start);
      var first := Begin(o, counters, sampler, start);
      if first.Continue? {
        IterationsGraced(o, startedAt, first.state, inputs);
      }
      GracedPlain(o, Flagged(last), last.log, run.value.log);
      ReturnFlags(o, startedAt, counters, sampler, start, inputs, f);
    }
  }

  lemma ReturnFlags(o: Options, startedAt: int, counters: bool, sampler: bool, start: CollectorInput,
                    inputs: seq<Input>, f: FinishInput)
    ensures var run := Run(o, startedAt, counters, sampler, start, inputs, f);
      run.Some? && run.value.Returned? ==>
        (run.value.outcome.reason in {Interrupted, TimedOut} <==>
           Flagged(LastState(o, startedAt, counters, sampler, start, inputs)))
  {
    hide Begin, Iterations, Finish;
    var r := Iterations(o, startedAt, Begin(o, counters, sampler, start).state, inputs);
    if r.Left? {
      Conclusions(o, r.state, r.status, f);
    }
  }
}
