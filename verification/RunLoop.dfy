/** The run loop as the object it is: the variables that ProcessRunner::run updates, one
    iteration of its loop at a time (src/process/process_runner.cpp:663-947). Each method is
    the branch structure of the source, and its contract is the state machine of ProcessRunner. */
module RunLoop {
  import opened Results
  import opened ProcessRunner
  import opened RunGuarantees
  import opened RunnerProtocol
  import opened RunOutcome
  import opened RunDecisions
  import opened RunCauses
  import opened RunCollectors

  /** How one step left the loop, if it did. */
  datatype Verdict = Continues | Leaves(status: Status) | Throws(error: Error)

  function StepOf(v: Verdict, s: Loop): StepResult {
    match v
    case Continues => Continue(s)
    case Leaves(status) => Left(s, status)
    case Throws(error) => Throw(s, error)
  }

  class Runner {
    const options: Options
    const startedAt: int
    var stopping: bool
    var timedOut: bool
    var interrupted: bool
    var sentKill: bool
    var graceDeadline: Option<int>
    var workload: bool
    var workloadCompleted: bool
    var managedStop: bool
    var failure: Option<Lifecycle>
    var counters: bool
    var sampler: bool
    var collectorsStarted: bool
    var collectorsStopped: bool
    var log: seq<Action>

    constructor (options: Options, startedAt: int, counters: bool, sampler: bool)
      ensures State() == Initial(counters, sampler)
      ensures this.options == options && this.startedAt == startedAt
    {
      this.options, this.startedAt := options, startedAt;
      stopping, timedOut, interrupted, sentKill, graceDeadline := false, false, false, false, None;
      workload, workloadCompleted, managedStop, failure := false, false, false, None;
      this.counters, this.sampler, collectorsStarted, collectorsStopped := counters, sampler, false, false;
      log := [];
    }

    function State(): (s: Loop)
      reads this
      ensures s.log == log && s.failure == failure && s.workload == workload && s.workloadCompleted == workloadCompleted
      ensures s.counters == counters && s.sampler == sampler
      ensures s.collectorsStarted == collectorsStarted && s.collectorsStopped == collectorsStopped
    {
      Loop(stopping, timedOut, interrupted, sentKill, graceDeadline, workload, workloadCompleted, managedStop,
           failure, counters, sampler, collectorsStarted, collectorsStopped, log)
    }

    method Note(a: Action)
      modifies this`log
      ensures State() == Did(old(State()), a)
    {
      log := log + [a];
    }

    /** ChildGuard::release. */
    method ReleaseGuard(process: Process)
      modifies this`log
      ensures State() == Release(old(State()), process)
    {
      Note(GroupKilled(process));
    }

    /** The destructor of a guard that still holds its process. */
    method DestroyGuard(process: Process)
      modifies this`log
      ensures State() == Destroy(old(State()), process)
    {
      Note(GroupKilled(process));
      Note(PidKilled(process));
      Note(Waited(process));
    }

    /** The destructors of the collectors still held. */
    method DestroyCollectors()
      modifies this`log
      ensures State() == DropCollectors(old(State()))
    {
      hide State;
      if sampler {
        Note(DroppedSampler);
      }
      if counters {
        Note(DroppedCounters);
      }
    }

    /** What a run that throws inside its loop destroys. */
    method UnwindRun()
      modifies this`log
      ensures log == Unwind(old(State()))
    {
      hide State, Destroy, DropCollectors;
      if workload {
        DestroyGuard(Workload);
      }
      DestroyCollectors();
      DestroyGuard(Target);
    }

    method SetDeadline(until: int)
      modifies this`graceDeadline, this`log
      ensures State() == Grant(old(State()), until)
    {
      graceDeadline := Some(until);
      Note(Deadline(until));
    }

    method ResetCounters()
      modifies this`counters
      ensures State() == old(State()).(counters := false)
    {
      counters := false;
    }

    method ResetSampler()
      modifies this`sampler
      ensures State() == old(State()).(sampler := false)
    {
      sampler := false;
    }

    method StartCountersIfAny(i: CollectorInput) returns (v: Verdict)
      modifies this
      ensures StepOf(v, State()) == StartCounters(old(State()), i) && !v.Leaves?
    {
      v := Continues;
      if counters {
        Note(StartedCounters);
        if i.countersFail {
          v := Throws(CollectorError);
        }
      }
    }

    method StartSamplerIfAny(i: CollectorInput) returns (v: Verdict)
      modifies this
      ensures StepOf(v, State()) == StartSampler(options, old(State()), i) && !v.Leaves?
    {
      hide State;
      v := Continues;
      if sampler {
        Note(StartedSampler);
        if i.samplerFails {
          ResetSampler();
          v := if options.requirePerf then Throws(CollectorError) else Continues;
        }
      }
    }

    method BeginCollecting(i: CollectorInput) returns (v: Verdict)
      modifies this
      ensures StepOf(v, State()) == StartCollectors(options, old(State()), i) && !v.Leaves?
    {
      v := StartCountersIfAny(i);
      if v.Continues? {
        v := StartSamplerIfAny(i);
        if v.Continues? {
          collectorsStarted := true;
        }
      }
    }

    method StopCountersIfAny(i: CollectorInput) returns (v: Verdict)
      modifies this
      ensures StepOf(v, State()) == StopCounters(options, old(State()), i) && !v.Leaves?
    {
      hide State;
      v := Continues;
      if counters {
        Note(StoppedCounters);
        if i.countersFail {
          ResetCounters();
          v := if options.requirePerf then Throws(CollectorError) else Continues;
        }
      }
    }

    method StopSamplerIfAny(i: CollectorInput) returns (v: Verdict)
      modifies this
      ensures StepOf(v, State()) == StopSampler(options, old(State()), i) && !v.Leaves?
    {
      hide State;
      v := Continues;
      if sampler {
        Note(StoppedSampler);
        if i.samplerFails {
          ResetSampler();
          v := if options.requirePerf then Throws(CollectorError) else Continues;
        }
      }
    }

    method MarkStopped()
      modifies this`collectorsStopped
      ensures State() == old(State()).(collectorsStopped := true)
    {
      collectorsStopped := true;
    }

    method EndCollecting(i: CollectorInput) returns (v: Verdict)
      modifies this
      ensures StepOf(v, State()) == StopCollectors(options, old(State()), i) && !v.Leaves?
    {
      hide State, StopCounters, StopSampler;
      if !collectorsStarted || collectorsStopped {
        return Continues;
      }
      v := StopCountersIfAny(i);
      if v.Continues? {
        v := StopSamplerIfAny(i);
        if v.Continues? {
          MarkStopped();
        }
      }
    }

    method BeginTermination(i: Input, grace: nat) returns (v: Verdict)
      modifies this
      ensures StepOf(v, State()) == Terminate(old(State()), i, grace)
    {
      stopping := true;
      if i.termFails {
        return Throws(SignalError);
      }
      Note(Sent(Target, Term, i.now));
      SetDeadline(i.now + grace);
      v := Continues;
    }

    method LaunchWorkload(i: Input) returns (v: Verdict)
      modifies this
      ensures StepOf(v, State()) == BeginWorkload(options, old(State()), i)
    {
      hide State, StartCollectors;
      v := BeginCollecting(i.start);
      if v.Continues? {
        if i.spawnFails {
          return Throws(SpawnError);
        }
        Note(StartedWorkload);
        HoldWorkload();
      }
    }

    method HoldWorkload()
      modifies this`workload
      ensures State() == old(State()).(workload := true)
    {
      workload := true;
    }

    method GiveUp(i: Input, grace: nat) returns (v: Verdict)
      modifies this
      ensures StepOf(v, State()) == AbandonService(old(State()), i, grace)
    {
      failure := Some(ReadinessTimedOut);
      v := BeginTermination(i, grace);
    }

    /** Keeps the protocol: what holds with `low`, the reading of the clock before, holds after. */
    method AwaitService(i: Input, ghost d: nat, ghost low: int) returns (v: Verdict)
      modifies this
      ensures StepOf(v, State()) == ServicePhase(options, startedAt, old(State()), i)
      ensures old(Follows(options, d, low, i.now, State())) ==> Sound(options, d, low, i.now, StepOf(v, State()))
    {
      ghost var s := State();
      if Follows(options, d, low, i.now, s) {
        ServicePhaseSound(options, d, startedAt, low, i.now, s, i);
      }
      hide Follows, Sound;
      v := Continues;
      if options.service.Some? && !workload && !workloadCompleted && failure.None? && !stopping {
        var service := options.service.value;
        var delayElapsed := i.now - startedAt >= service.startupDelay;
        var ready := delayElapsed && (!service.readyTcp || i.tcpReady);
        if ready {
          v := LaunchWorkload(i);
        } else if i.now - startedAt >= service.readyTimeout {
          v := GiveUp(i, service.shutdownGrace);
        }
      }
    }

    method Fail(lifecycle: Lifecycle)
      modifies this`failure
      ensures State() == old(State()).(failure := Some(lifecycle))
    {
      failure := Some(lifecycle);
    }

    method Complete()
      modifies this`workloadCompleted, this`managedStop
      ensures State() == old(State()).(workloadCompleted := true, managedStop := true)
    {
      workloadCompleted, managedStop := true, true;
    }

    method JudgeWorkload(status: Status)
      modifies this
      ensures State() == Judge(old(State()), status)
    {
      hide State;
      match status
      case ExitStatus(code) =>
        if code == 0 {
          Complete();
        } else {
          Fail(WorkloadExited(code));
        }
      case KilledBy(signal) => Fail(WorkloadKilled(signal));
      case OddStatus => Fail(WorkloadEndedOddly);
    }

    method FinishWorkload(i: Input, status: Status) returns (v: Verdict)
      requires options.service.Some?
      modifies this
      ensures StepOf(v, State()) == EndWorkload(options, old(State()), i, status)
    {
      hide State, StopCollectors, Judge, Terminate;
      Note(Reaped(Workload, status));
      ReleaseGuard(Workload);
      LetGo();
      v := EndCollecting(i.stop);
      if v.Continues? {
        JudgeWorkload(status);
        v := BeginTermination(i, options.service.value.shutdownGrace);
      }
    }

    method AwaitWorkload(i: Input, ghost d: nat, ghost low: int) returns (v: Verdict)
      modifies this
      ensures StepOf(v, State()) == WorkloadPhase(options, old(State()), i)
      ensures old(Follows(options, d, low, i.now, State())) ==> Sound(options, d, low, i.now, StepOf(v, State()))
    {
      ghost var s := State();
      if Follows(options, d, low, i.now, s) {
        WorkloadPhaseSound(options, d, low, i.now, s, i);
      }
      hide Follows, Sound;
      v := Continues;
      if workload && options.service.Some? {
        match i.workloadWait
        case Ended(status) => v := FinishWorkload(i, status);
        case WaitFails => v := Throws(WaitError);
        case _ =>
      }
    }

    method Signal(i: Input, signal: Signal) returns (v: Verdict)
      modifies this
      ensures StepOf(v, State()) == SignalAll(old(State()), i, signal)
    {
      if i.stopSignalFails {
        return Throws(SignalError);
      }
      Note(Sent(Target, signal, i.now));
      if workload {
        if i.workloadSignalFails {
          return Throws(SignalError);
        }
        Note(Sent(Workload, signal, i.now));
      }
      v := Continues;
    }

    method SignalThenWait(i: Input, signal: Signal) returns (v: Verdict)
      modifies this
      ensures StepOf(v, State()) == SignalWithGrace(options, old(State()), i, signal)
    {
      v := Signal(i, signal);
      if v.Continues? {
        SetDeadline(i.now + options.terminationGrace);
      }
    }

    method InterruptRun(i: Input) returns (v: Verdict)
      modifies this
      ensures StepOf(v, State()) == Interrupt(options, old(State()), i)
    {
      interrupted, stopping := true, true;
      v := SignalThenWait(i, Received(i.receivedSignal));
    }

    method TimeOutRun(i: Input) returns (v: Verdict)
      modifies this
      ensures StepOf(v, State()) == TimeOut(options, old(State()), i)
    {
      timedOut, stopping := true, true;
      v := SignalThenWait(i, Term);
    }

    method Escalate(i: Input) returns (v: Verdict)
      modifies this
      ensures StepOf(v, State()) == KillAll(old(State()), i)
    {
      v := Signal(i, Kill);
      if v.Continues? {
        sentKill := true;
      }
    }

    method StopOrKill(i: Input, ghost d: nat, ghost low: int) returns (v: Verdict)
      modifies this
      ensures StepOf(v, State()) == StopPhase(options, startedAt, old(State()), i)
      ensures old(Follows(options, d, low, i.now, State())) ==> Sound(options, d, i.now, i.now, StepOf(v, State()))
    {
      ghost var s := State();
      if Follows(options, d, low, i.now, s) {
        StopPhaseSound(options, d, startedAt, low, i.now, s, i);
      }
      hide Follows, Sound;
      v := Continues;
      if !stopping && i.receivedSignal != 0 {
        v := InterruptRun(i);
      } else if !stopping && options.timeout.Some? && i.now - startedAt >= options.timeout.value {
        v := TimeOutRun(i);
      } else if stopping && !sentKill && graceDeadline.Some? && i.now >= graceDeadline.value {
        v := Escalate(i);
      }
    }

    /** The protocol and the account of the flags, between two iterations. */
    ghost predicate InOrder(d: nat, last: int)
      reads this
    {
      Follows(options, d, last, last, State()) && Consistent(options, State())
    }

    /** What an iteration, or any number of them, delivers. */
    ghost predicate Delivers(v: Verdict, d: nat, now: int)
      reads this
    {
      match v
      case Continues => InOrder(d, now)
      case Throws(_) => Accounted(options, d, State())
      case Leaves(_) => Finishing(options, d, State()) && Consistent(options, State())
    }

    /** Lines 750-843. */
    method Iterates(i: Input, ghost d: nat, ghost last: int) returns (v: Verdict)
      modifies this
      ensures StepOf(v, State()) == Iterate(options, startedAt, old(State()), i)
    {
      hide Follows, Sound;
      match i.wait
      case Ended(status) =>
        Note(Reaped(Target, status));
        v := Leaves(status);
      case WaitFails => v := Throws(WaitError);
      case _ =>
        v := AwaitService(i, d, last);
        if v.Continues? {
          v := AwaitWorkload(i, d, last);
          if v.Continues? {
            v := StopOrKill(i, d, last);
          }
        }
    }

    /** One iteration. If the run is in order and the clock has not gone back or further than d, it
        stays in order, or the run throws or ends with a log that keeps to the rules. A run that
        goes on unstopped had no signal, no elapsed timeout and no used-up readiness timeout; one
        that is being stopped keeps its flags. */
    method Step(i: Input, ghost d: nat, ghost last: int) returns (v: Verdict)
      modifies this
      ensures StepOf(v, State()) == Iterate(options, startedAt, old(State()), i)
      ensures old(InOrder(d, last)) && (Polls(i) ==> last <= i.now <= last + d) ==> Delivers(v, d, i.now)
      ensures old(InOrder(d, last)) && v.Continues? && !stopping ==>
                && i.receivedSignal == 0
                && (options.timeout.Some? ==> i.now - startedAt < options.timeout.value)
                && (options.service.Some? && !workload ==> i.now - startedAt < options.service.value.readyTimeout)
      ensures old(stopping) && v.Continues? ==> stopping && interrupted == old(interrupted) && timedOut == old(timedOut)
      ensures v.Continues? && workload && !old(workload) ==>
                && options.service.Some?
                && i.now - startedAt >= options.service.value.startupDelay
                && (options.service.value.readyTcp ==> i.tcpReady)
      ensures v.Leaves? <==> i.wait.Ended?
      ensures !v.Leaves? ==> (if v.Throws? then Some(v.error) else None) == Fault(options, startedAt, old(State()), i)
      ensures v.Continues? ==> Table(options, startedAt, old(State()), i, State())
      ensures Adds(options, startedAt, i, old(log), log)
    {
      hide Iterate, Follows, Consistent, Accounted, Finishing, Fault, Table, Adds;
      ghost var s := State();
      v := Iterates(i, d, last);
      StepDelivers(options, startedAt, s, i, d, last);
      Decisions(options, startedAt, s, i);
      IterateAdds(options, startedAt, s, i);
      if Iterate(options, startedAt, s, i).Continue? {
        NewlyCaused(options, startedAt, s, i);
      }
    }

    /** The loop, over as many iterations as there are answers. */
    method Loops(inputs: seq<Input>, ghost d: nat, ghost last: int) returns (v: Verdict)
      modifies this
      ensures StepOf(v, State()) == Iterations(options, startedAt, old(State()), inputs)
      ensures old(InOrder(d, last)) && Paced(d, last, inputs) ==> Delivers(v, d, Clock(last, inputs))
      ensures CausedFrom(options, startedAt, inputs, old(log), log)
    {
      hide Follows, Consistent, Accounted, Finishing, Iterate, CausedFrom, Fault, Table, Adds;
      IterationsCaused(options, startedAt, State(), inputs);
      v := Continues;
      var k := 0;
      ghost var now := last;
      while k < |inputs| && v.Continues?
        invariant 0 <= k <= |inputs|
        invariant v.Continues? ==>
          Iterations(options, startedAt, State(), inputs[k..]) == Iterations(options, startedAt, old(State()), inputs)
        invariant !v.Continues? ==> StepOf(v, State()) == Iterations(options, startedAt, old(State()), inputs)
        invariant old(InOrder(d, last)) && Paced(d, last, inputs) ==>
          Delivers(v, d, now) && (v.Continues? ==> Paced(d, now, inputs[k..]) && Clock(last, inputs) == Clock(now, inputs[k..]))
      {
        assert inputs[k..][0] == inputs[k] && inputs[k..][1..] == inputs[k + 1..];
        ghost var s := State();
        v := Step(inputs[k], d, now);
        if v.Continues? {
          IterateContinues(options, startedAt, s, inputs[k]);
        }
        now := inputs[k].now;
        k := k + 1;
      }
    }

    method LetGo()
      modifies this`workload
      ensures State() == old(State()).(workload := false)
    {
      workload := false;
    }

    method Accuse(lifecycle: Lifecycle)
      modifies this`failure
      ensures State() == Blame(old(State()), lifecycle)
    {
      if failure.None? && !interrupted && !timedOut {
        failure := Some(lifecycle);
      }
    }

    method LoseService()
      modifies this
      ensures State() == ServiceGone(options, old(State()))
    {
      hide State;
      if workload {
        Accuse(ServiceDiedDuringWorkload);
        DestroyGuard(Workload);
        LetGo();
      }
      if options.service.Some? && !workloadCompleted {
        Accuse(ServiceDiedBeforeWorkload);
      }
    }

    method OutcomeOf(status: Status, receivedSignal: nat) returns (outcome: Result<Outcome, Error>)
      ensures outcome == Classify(State(), status, receivedSignal)
    {
      if interrupted {
        outcome := Ok(Outcome(Interrupted, 0, receivedSignal));
      } else if timedOut {
        outcome := Ok(Outcome(TimedOut, 0, if status.KilledBy? then status.signal else 0));
      } else if managedStop {
        outcome := Ok(Outcome(Exited, 0, 0));
      } else {
        match status
        case ExitStatus(code) => outcome := Ok(Outcome(Exited, code, 0));
        case KilledBy(signal) => outcome := Ok(Outcome(Signaled, 0, signal));
        case OddStatus => outcome := Err(UnsupportedStatus);
      }
    }

    method MakeReport(status: Status, f: FinishInput) returns (report: Result<Outcome, Error>)
      ensures report == Report(options, State(), status, f)
    {
      if f.childError {
        return Err(ChildError);
      }
      if failure.Some? {
        return Err(LifecycleError(failure.value));
      }
      if options.requirePerf && ((counters && f.readings.countersFail) || (sampler && f.readings.samplerFails)) {
        return Err(CollectorError);
      }
      if f.metricsFail {
        return Err(MetricsError);
      }
      report := OutcomeOf(status, f.receivedSignal);
    }

    /** From the target's exit to the end of the run: concluded, unless the final stop of the
        collectors throws and the guard of the target acts on a reaped process. */
    method Conclude(status: Status, f: FinishInput, ghost d: nat) returns (ending: Ending)
      modifies this
      ensures ending == Finish(options, old(State()), status, f)
      ensures old(Finishing(options, d, State())) ==>
                if old(FinalStopFails(options, State(), f)) then Overrun(options, d, ending.log)
                else Concluded(options, d, ending.log)
      ensures ResultOf(ending) == Conclusion(options, old(State()), status, f)
    {
      hide Finishing, FinalStopFails, Overrun, Concluded, State, ServiceGone, StopCollectors, DropCollectors, Report, Release,
        Destroy, ResultOf, Conclusion;
      ghost var s := State();
      Conclusions(options, s, status, f);
      if Finishing(options, d, s) {
        FinishConcludes(options, d, s, status, f);
      }
      LoseService();
      var v := EndCollecting(f.stop);
      if v.Throws? {
        DestroyCollectors();
        DestroyGuard(Target);
        ending := Threw(v.error, log);
      } else {
        ReleaseGuard(Target);
        var report := MakeReport(status, f);
        DestroyCollectors();
        ending := if report.Ok? then Returned(report.value, log) else Threw(report.error, log);
      }
    }
  }

  lemma StepDelivers(o: Options, startedAt: int, s: Loop, i: Input, d: nat, last: int)
    ensures Follows(o, d, last, last, s) && Consistent(o, s) && (Polls(i) ==> last <= i.now <= last + d) ==>
      StaysSound(o, d, i.now, Iterate(o, startedAt, s, i)) && StaysConsistent(o, Iterate(o, startedAt, s, i))
    ensures var r := Iterate(o, startedAt, s, i);
      Consistent(o, s) && r.Continue? && !r.state.stopping ==>
        && i.receivedSignal == 0
        && (o.timeout.Some? ==> i.now - startedAt < o.timeout.value)
        && (o.service.Some? && !r.state.workload ==> i.now - startedAt < o.service.value.readyTimeout)
    ensures var r := Iterate(o, startedAt, s, i); s.stopping && r.Continue? ==> SameFlags(s, r.state)
  {
    hide Iterate, Follows, Consistent, StaysSound, StaysConsistent, SameFlags;
    if Consistent(o, s) {
      IterateConsistent(o, startedAt, s, i);
      if Follows(o, d, last, last, s) && (Polls(i) ==> last <= i.now <= last + d) {
        IterateSound(o, d, startedAt, last, s, i);
      }
      if Iterate(o, startedAt, s, i).Continue? {
        NothingMissed(o, startedAt, s, i);
      }
    }
    if s.stopping && Iterate(o, startedAt, s, i).Continue? {
      FlagsAreFirstComeOnly(o, startedAt, s, i);
    }
  }

  /** One whole run; None if the given answers end before the loop does. Every run that ends does at
      most once what may be done once, leaves no process behind, kills within the bounds of the
      graces, and returns normally only with an outcome that its log justifies. */
  method RunProcess(options: Options, startedAt: int, counters: bool, sampler: bool, start: CollectorInput,
                    inputs: seq<Input>, f: FinishInput, ghost d: nat) returns (ending: Option<Ending>)
    ensures ending == Run(options, startedAt, counters, sampler, start, inputs, f)
    ensures Paced(d, startedAt, inputs) && ending.Some? ==> NothingTwiceIn(ending.value.log) && AllReaped(ending.value.log)
    ensures Paced(d, startedAt, inputs) && ending.Some? ==>
      forall k :: 0 <= k < |ending.value.log| && IsKill(ending.value.log[k]) ==>
        KillBounded(options, d, ending.value.log, k)
    ensures Paced(d, startedAt, inputs) && ending.Some? && ending.value.Returned? ==>
      Justified(options, ending.value.outcome, ending.value.log, f.receivedSignal) && Collected(options, ending.value.log)
    ensures ending.Some? ==> forall k :: 0 <= k < |ending.value.log| && NeedsCause(options, ending.value.log[k]) ==>
      Caused(options, startedAt, inputs, ending.value.log[k])
    ensures ending.Some? && ending.value.Returned? ==>
      Graced(options, ending.value.outcome.reason in {Interrupted, TimedOut}, ending.value.log)
  {
    hide Iterations, Finish, Paced, NothingTwiceIn, AllReaped, KillBounded, Justified, Caused, Graced, NeedsCause, Collected;
    var runner := new Runner(options, startedAt, counters, sampler);
    var v := Continues;
    if options.service.None? {
      v := runner.BeginCollecting(start);
    }
    if v.Continues? {
      v := runner.Loops(inputs, d, startedAt);
    }
    match v {
      case Continues => ending := None;
      case Throws(error) =>
        runner.UnwindRun();
        ending := Some(Threw(error, runner.log));
      case Leaves(status) =>
        var e := runner.Conclude(status, f, d);
        ending := Some(e);
    }
    RunGuaranteed(options, d, startedAt, counters, sampler, start, inputs, f);
    RunCaused(options, startedAt, counters, sampler, start, inputs, f);
    RunGraced(options, startedAt, counters, sampler, start, inputs, f);
    hide Run;
  }

  lemma RunGuaranteed(o: Options, d: nat, startedAt: int, counters: bool, sampler: bool, start: CollectorInput,
                      inputs: seq<Input>, f: FinishInput)
    ensures var run := Run(o, startedAt, counters, sampler, start, inputs, f);
      Paced(d, startedAt, inputs) && run.Some? ==>
        && NothingTwiceIn(run.value.log)
        && AllReaped(run.value.log)
        && (forall k :: 0 <= k < |run.value.log| && IsKill(run.value.log[k]) ==> KillBounded(o, d, run.value.log, k))
        && (run.value.Returned? ==>
              Justified(o, run.value.outcome, run.value.log, f.receivedSignal) && Collected(o, run.value.log))
  {
    hide Run, Paced, NothingTwiceIn, AllReaped, KillBounded, Justified, Collected;
    var run := Run(o, startedAt, counters, sampler, start, inputs, f);
    if Paced(d, startedAt, inputs) && run.Some? {
      NothingTwice(o, d, startedAt, counters, sampler, start, inputs, f);
      EverythingReaped(o, d, startedAt, counters, sampler, start, inputs, f);
      RunJustified(o, d, startedAt, counters, sampler, start, inputs, f);
      RunCollected(o, d, startedAt, counters, sampler, start, inputs, f);
      forall k | 0 <= k < |run.value.log| && IsKill(run.value.log[k])
        ensures KillBounded(o, d, run.value.log, k)
      {
        BoundedEscalation(o, d, startedAt, counters, sampler, start, inputs, f, k);
      }
    }
  }
}
